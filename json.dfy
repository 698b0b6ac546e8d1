/**
 * `JSON.stringify` and `JSON.parse` over the values of this model.
 *
 * `ToJson` is the conversion `JSON.stringify` performs before printing
 * (`undefined` properties are omitted, `undefined` array elements print as
 * `null`, a date prints through `toJSON` as its ISO text, a form body has no
 * own properties). `Serialize` prints a JSON tree with no whitespace, and
 * `Parse` reads the JSON grammar of RFC 8259 back, restricted to integer
 * numbers. The round trip `Parse(Serialize(j)) == Some(j)` is proved for
 * every tree whose objects have distinct keys.
 */
module Json {
  import opened Common
  import opened JsValue

  datatype Json =
    | JNull
    | JBool(b: bool)
    | JNum(n: int)
    | JStr(s: string)
    | JArr(items: seq<Json>)
    | JObj(members: seq<(string, Json)>)

  /** Every object in the tree has distinct keys, as a parsed JavaScript object does. */
  predicate WellFormed(j: Json) {
    match j
    case JArr(items) => forall i :: 0 <= i < |items| ==> WellFormed(items[i])
    case JObj(ms) => UniqueKeys(ms) && forall i :: 0 <= i < |ms| ==> WellFormed(ms[i].1)
    case _ => true
  }

  /** Every object in the value has distinct keys. */
  predicate WellFormedValue(v: Value) {
    match v
    case Arr(items) => forall i :: 0 <= i < |items| ==> WellFormedValue(items[i])
    case Obj(fs) => UniqueKeys(fs) && forall i :: 0 <= i < |fs| ==> WellFormedValue(fs[i].1)
    case _ => true
  }

  // ---- value to JSON tree ----

  /** What `JSON.stringify` prints for `v`; `None` when it returns `undefined`. */
  function ToJson(v: Value): (r: Option<Json>)
    ensures r.None? <==> v.Undefined?
    decreases v, 1
  {
    match v
    case Undefined => None
    case Null => Some(JNull)
    case Bool(b) => Some(JBool(b))
    case Num(n) => Some(JNum(n))
    case Str(s) => Some(JStr(s))
    case Date(iso) => Some(JStr(iso))
    case Arr(items) => Some(JArr(ItemsToJson(items)))
    case Obj(fs) => Some(JObj(FieldsToJson(fs)))
    case Form(_) => Some(JObj([]))
  }

  /** Array elements: `undefined` becomes `null`, nothing is dropped. */
  function ItemsToJson(items: seq<Value>): (r: seq<Json>)
    ensures |r| == |items|
    ensures forall i :: 0 <= i < |items| ==> r[i] == (if items[i].Undefined? then JNull else ToJson(items[i]).value)
    decreases items, 0
  {
    if |items| == 0 then []
    else
      var head := match ToJson(items[0]) case Some(j) => j case None => JNull;
      [head] + ItemsToJson(items[1..])
  }

  /** Object properties: those whose value is `undefined` are omitted, the rest keep their order. */
  function FieldsToJson(fs: Fields): (r: seq<(string, Json)>)
    ensures |r| <= |fs|
    decreases fs, 0
  {
    if |fs| == 0 then []
    else
      var p := fs[0];
      assert p.1 < p;
      match ToJson(p.1)
      case None => FieldsToJson(fs[1..])
      case Some(j) => [(p.0, j)] + FieldsToJson(fs[1..])
  }

  /** A member is printed exactly when some property of that name holds a value with a JSON form, and it is that form. */
  lemma {:induction false} FieldsToJsonMembers(fs: Fields, k: string, j: Json)
    ensures (k, j) in FieldsToJson(fs) <==> exists i :: 0 <= i < |fs| && fs[i].0 == k && ToJson(fs[i].1) == Some(j)
    decreases fs
  {
    if |fs| > 0 {
      FieldsToJsonMembers(fs[1..], k, j);
      if exists i :: 0 <= i < |fs[1..]| && fs[1..][i].0 == k && ToJson(fs[1..][i].1) == Some(j) {
        var i :| 0 <= i < |fs[1..]| && fs[1..][i].0 == k && ToJson(fs[1..][i].1) == Some(j);
        assert fs[i + 1] == fs[1..][i];
      }
      if exists i :: 0 <= i < |fs| && fs[i].0 == k && ToJson(fs[i].1) == Some(j) {
        var i :| 0 <= i < |fs| && fs[i].0 == k && ToJson(fs[i].1) == Some(j);
        if i > 0 {
          assert fs[1..][i - 1] == fs[i];
        }
      }
    }
  }

  /** The JavaScript value `JSON.parse` builds from a tree. */
  function FromJson(j: Json): Value
    decreases j, 1
  {
    match j
    case JNull => Null
    case JBool(b) => Bool(b)
    case JNum(n) => Num(n)
    case JStr(s) => Str(s)
    case JArr(items) => Arr(ItemsFromJson(items))
    case JObj(ms) => Obj(MembersFromJson(ms))
  }

  function ItemsFromJson(items: seq<Json>): (r: seq<Value>)
    ensures |r| == |items|
    decreases items, 0
  {
    if |items| == 0 then [] else [FromJson(items[0])] + ItemsFromJson(items[1..])
  }

  function MembersFromJson(ms: seq<(string, Json)>): (r: Fields)
    ensures |r| == |ms|
    decreases ms, 0
  {
    if |ms| == 0 then []
    else
      var p := ms[0];
      assert p.1 < p;
      [(p.0, FromJson(p.1))] + MembersFromJson(ms[1..])
  }

  // ---- printing ----

  function HexDigit(d: nat): (c: char)
    requires d < 16
  {
    if d < 10 then DigitChar(d) else ('a' as int + d - 10) as char
  }

  /** How `JSON.stringify` writes one character inside a string literal. */
  function EscapeChar(c: char): (r: string)
    ensures |r| >= 1
  {
    if c == '"' then "\\\""
    else if c == '\\' then "\\\\"
    else if c == '\U{0008}' then "\\b"
    else if c == '\U{000C}' then "\\f"
    else if c == '\n' then "\\n"
    else if c == '\r' then "\\r"
    else if c == '\t' then "\\t"
    else if c < ' ' then "\\u00" + [HexDigit(c as int / 16), HexDigit(c as int % 16)]
    else [c]
  }

  function Escape(s: string): string {
    if |s| == 0 then "" else EscapeChar(s[0]) + Escape(s[1..])
  }

  function Quote(s: string): string {
    "\"" + Escape(s) + "\""
  }

  function Serialize(j: Json): (r: string)
    decreases j, 1
  {
    match j
    case JNull => "null"
    case JBool(b) => if b then "true" else "false"
    case JNum(n) => IntToString(n)
    case JStr(s) => Quote(s)
    case JArr(items) => "[" + SerializeItems(items) + "]"
    case JObj(ms) => "{" + SerializeMembers(ms) + "}"
  }

  function SerializeItems(items: seq<Json>): string
    decreases items, 0
  {
    if |items| == 0 then ""
    else if |items| == 1 then Serialize(items[0])
    else Serialize(items[0]) + "," + SerializeItems(items[1..])
  }

  function SerializeMember(k: string, j: Json): string
    decreases j, 2
  {
    Quote(k) + ":" + Serialize(j)
  }

  function SerializeMembers(ms: seq<(string, Json)>): string
    decreases ms, 1
  {
    if |ms| == 0 then ""
    else
      var p := ms[0];
      assert p.1 < p;
      if |ms| == 1 then SerializeMember(p.0, p.1)
      else SerializeMember(p.0, p.1) + "," + SerializeMembers(ms[1..])
  }

  /** `JSON.stringify(v)`: `None` stands for the `undefined` it returns for `undefined`. */
  function Stringify(v: Value): (r: Option<string>)
    ensures r.None? <==> v.Undefined?
  {
    match ToJson(v)
    case Some(j) => Some(Serialize(j))
    case None => None
  }

  // ---- parsing ----

  predicate IsJsonWs(c: char) {
    c == ' ' || c == '\t' || c == '\n' || c == '\r'
  }

  function SkipWs(s: string): (r: string)
    ensures |r| <= |s|
    ensures r == [] || !IsJsonWs(r[0])
  {
    if |s| > 0 && IsJsonWs(s[0]) then SkipWs(s[1..]) else s
  }

  predicate IsHexChar(c: char) {
    IsAsciiDigit(c) || 'a' <= c <= 'f' || 'A' <= c <= 'F'
  }

  function HexValue(c: char): (d: nat)
    requires IsHexChar(c)
    ensures d < 16
  {
    if IsAsciiDigit(c) then DigitValue(c)
    else if 'a' <= c <= 'f' then c as int - 'a' as int + 10
    else c as int - 'A' as int + 10
  }

  /** The character a one-letter escape `\e` stands for. */
  function SimpleUnescape(e: char): Option<char> {
    if e == '"' then Some('"')
    else if e == '\\' then Some('\\')
    else if e == '/' then Some('/')
    else if e == 'b' then Some('\U{0008}')
    else if e == 'f' then Some('\U{000C}')
    else if e == 'n' then Some('\n')
    else if e == 'r' then Some('\r')
    else if e == 't' then Some('\t')
    else None
  }

  /** The body of a string literal up to its closing quote, and what follows it. */
  function ParseString(s: string): (r: Option<(string, string)>)
    ensures r.Some? ==> |r.value.1| < |s|
  {
    if |s| == 0 then None
    else if s[0] == '"' then Some(("", s[1..]))
    else if s[0] < ' ' then None
    else if s[0] != '\\' then
      match ParseString(s[1..])
      case Some((body, rest)) => Some(([s[0]] + body, rest))
      case None => None
    else if |s| < 2 then None
    else if SimpleUnescape(s[1]).Some? then
      match ParseString(s[2..])
      case Some((body, rest)) => Some(([SimpleUnescape(s[1]).value] + body, rest))
      case None => None
    else if s[1] == 'u' && |s| >= 6 && IsHexChar(s[2]) && IsHexChar(s[3]) && IsHexChar(s[4]) && IsHexChar(s[5]) then
      var code := 4096 * HexValue(s[2]) + 256 * HexValue(s[3]) + 16 * HexValue(s[4]) + HexValue(s[5]);
      if 0xD800 <= code <= 0xDFFF then None
      else
        match ParseString(s[6..])
        case Some((body, rest)) => Some(([code as char] + body, rest))
        case None => None
    else None
  }

  /** The number of leading decimal digits. */
  function DigitRun(s: string): (n: nat)
    ensures n <= |s| && AllDigits(s[..n])
    ensures n == |s| || !IsAsciiDigit(s[n])
  {
    if |s| > 0 && IsAsciiDigit(s[0]) then
      var n := 1 + DigitRun(s[1..]);
      assert s[..n] == [s[0]] + s[1..][..n - 1];
      n
    else 0
  }

  /** An integer literal; a fraction or an exponent is outside the model. */
  function ParseNumber(t: string): (r: Option<(Json, string)>)
    ensures r.Some? ==> |r.value.1| < |t|
  {
    var neg := |t| > 0 && t[0] == '-';
    var u := if neg then t[1..] else t;
    var d := DigitRun(u);
    if d == 0 then None
    else if u[0] == '0' && d > 1 then None
    else
      var rest := u[d..];
      if |rest| > 0 && (rest[0] == '.' || rest[0] == 'e' || rest[0] == 'E') then None
      else
        var mag: int := DigitsValue(u[..d]);
        Some((JNum(if neg then -mag else mag), rest))
  }

  function ParseValue(s: string): (r: Option<(Json, string)>)
    ensures r.Some? ==> |r.value.1| < |s|
    decreases |s|, 1
  {
    var t := SkipWs(s);
    if |t| == 0 then None
    else if t[0] == 'n' then (if StartsWith(t, "null") then Some((JNull, t[4..])) else None)
    else if t[0] == 't' then (if StartsWith(t, "true") then Some((JBool(true), t[4..])) else None)
    else if t[0] == 'f' then (if StartsWith(t, "false") then Some((JBool(false), t[5..])) else None)
    else if t[0] == '"' then
      match ParseString(t[1..])
      case Some((body, rest)) => Some((JStr(body), rest))
      case None => None
    else if t[0] == '[' then
      var u := SkipWs(t[1..]);
      if |u| > 0 && u[0] == ']' then Some((JArr([]), u[1..]))
      else
        match ParseElements(u)
        case Some((items, rest)) => Some((JArr(items), rest))
        case None => None
    else if t[0] == '{' then
      var u := SkipWs(t[1..]);
      if |u| > 0 && u[0] == '}' then Some((JObj([]), u[1..]))
      else
        match ParseMembers(u, [])
        case Some((ms, rest)) => Some((JObj(ms), rest))
        case None => None
    else if t[0] == '-' || IsAsciiDigit(t[0]) then ParseNumber(t)
    else None
  }

  /** Array elements after `[`, through the closing `]`. */
  function ParseElements(s: string): (r: Option<(seq<Json>, string)>)
    ensures r.Some? ==> |r.value.1| < |s|
    decreases |s|, 2
  {
    match ParseValue(s)
    case None => None
    case Some((j, rest)) =>
      var u := SkipWs(rest);
      if |u| > 0 && u[0] == ',' then
        match ParseElements(u[1..])
        case Some((items, rest')) => Some(([j] + items, rest'))
        case None => None
      else if |u| > 0 && u[0] == ']' then Some(([j], u[1..]))
      else None
  }

  /**
   * Object members after `{`, through the closing `}`. A repeated key keeps
   * its first position and takes the last value, as `JSON.parse` does.
   */
  function ParseMembers(s: string, acc: seq<(string, Json)>): (r: Option<(seq<(string, Json)>, string)>)
    ensures r.Some? ==> |r.value.1| < |s|
    decreases |s|, 2
  {
    var t := SkipWs(s);
    if |t| == 0 || t[0] != '"' then None
    else
      match ParseString(t[1..])
      case None => None
      case Some((k, r1)) =>
        var r2 := SkipWs(r1);
        if |r2| == 0 || r2[0] != ':' then None
        else
          match ParseValue(r2[1..])
          case None => None
          case Some((j, r3)) =>
            var acc' := Put(acc, k, j);
            var r4 := SkipWs(r3);
            if |r4| > 0 && r4[0] == ',' then ParseMembers(r4[1..], acc')
            else if |r4| > 0 && r4[0] == '}' then Some((acc', r4[1..]))
            else None
  }

  /** `JSON.parse(s)`; `None` stands for the `SyntaxError` it throws. */
  function Parse(s: string): Option<Json> {
    match ParseValue(s)
    case Some((j, rest)) => if SkipWs(rest) == [] then Some(j) else None
    case None => None
  }

  // ---- round trip ----

  lemma EscapeCharParses(c: char, tail: string)
    ensures ParseString(EscapeChar(c) + tail) ==
      match ParseString(tail)
      case Some((body, rest)) => Some(([c] + body, rest))
      case None => None
  {
    if c == '"' || c == '\\' || c == '\U{0008}' || c == '\U{000C}' || c == '\n' || c == '\r' || c == '\t' {
      assert (EscapeChar(c) + tail)[2..] == tail;
    } else if c < ' ' {
      ControlCharParses(c, tail);
    } else {
      assert (EscapeChar(c) + tail)[1..] == tail;
    }
  }

  lemma ControlCharParses(c: char, tail: string)
    requires c < ' ' && c != '\U{0008}' && c != '\U{000C}' && c != '\n' && c != '\r' && c != '\t'
    ensures ParseString(EscapeChar(c) + tail) ==
      match ParseString(tail)
      case Some((body, rest)) => Some(([c] + body, rest))
      case None => None
  {
    var s := EscapeChar(c) + tail;
    var hi := c as int / 16;
    var lo := c as int % 16;
    assert hi == 0 || hi == 1;
    assert s[6..] == tail;
    assert HexValue(s[4]) == hi;
    assert HexValue(s[5]) == lo;
  }

  lemma {:induction false} EscapeParses(str: string, rest: string)
    ensures ParseString(Escape(str) + "\"" + rest) == Some((str, rest))
  {
    if |str| == 0 {
      assert Escape(str) + "\"" + rest == "\"" + rest;
      assert ("\"" + rest)[1..] == rest;
    } else {
      var tail := Escape(str[1..]) + "\"" + rest;
      assert Escape(str) + "\"" + rest == EscapeChar(str[0]) + tail;
      EscapeParses(str[1..], rest);
      EscapeCharParses(str[0], tail);
      assert [str[0]] + str[1..] == str;
    }
  }

  /** What may follow a printed value inside a printed document. */
  predicate Delimited(rest: string) {
    rest == [] || rest[0] == ',' || rest[0] == ']' || rest[0] == '}'
  }

  lemma NoWsSkip(s: string)
    requires s == [] || !IsJsonWs(s[0])
    ensures SkipWs(s) == s
  {
  }

  lemma SerializeStart(j: Json)
    ensures |Serialize(j)| > 0 && !IsJsonWs(Serialize(j)[0])
  {
    match j
    case JNum(n) =>
      if n < 0 {
        assert Serialize(j)[0] == '-';
      } else {
        assert IsAsciiDigit(NatToString(n)[0]);
      }
    case _ =>
  }

  lemma DigitRunOfNat(m: nat, rest: string)
    requires rest == [] || !IsAsciiDigit(rest[0])
    ensures DigitRun(NatToString(m) + rest) == |NatToString(m)|
    ensures (NatToString(m) + rest)[..|NatToString(m)|] == NatToString(m)
  {
    var ds := NatToString(m);
    DigitRunPrefix(ds, rest);
  }

  lemma {:induction false} DigitRunPrefix(ds: string, rest: string)
    requires AllDigits(ds)
    requires rest == [] || !IsAsciiDigit(rest[0])
    ensures DigitRun(ds + rest) == |ds|
  {
    if |ds| > 0 {
      DigitRunPrefix(ds[1..], rest);
      assert (ds + rest)[1..] == ds[1..] + rest;
    } else {
      assert ds + rest == rest;
    }
  }

  lemma NatParses(m: nat, rest: string)
    requires Delimited(rest)
    ensures var ds := NatToString(m); var u := ds + rest;
      DigitRun(u) == |ds| && u[..|ds|] == ds && u[|ds|..] == rest
      && !(u[0] == '0' && |ds| > 1) && DigitsValue(u[..|ds|]) == m
  {
    var ds := NatToString(m);
    DigitRunOfNat(m, rest);
    assert (ds + rest)[|ds|..] == rest;
    NatToStringLength(m);
    DigitsValueOfNatToString(m);
  }

  lemma NumberParses(n: int, rest: string)
    requires Delimited(rest)
    ensures ParseNumber(IntToString(n) + rest) == Some((JNum(n), rest))
  {
    if n < 0 {
      NegativeParses(n, rest);
    } else {
      NatNumberParses(n, rest);
    }
  }

  lemma NegativeParses(n: int, rest: string)
    requires n < 0 && Delimited(rest)
    ensures ParseNumber(IntToString(n) + rest) == Some((JNum(n), rest))
  {
    var u := NatToString(-n) + rest;
    var t := IntToString(n) + rest;
    Regroup("-", NatToString(-n), rest);
    assert t == "-" + u;
    assert t[1..] == u;
    NatParses(-n, rest);
  }

  lemma NatNumberParses(m: nat, rest: string)
    requires Delimited(rest)
    ensures ParseNumber(IntToString(m) + rest) == Some((JNum(m), rest))
  {
    assert IsAsciiDigit(NatToString(m)[0]);
    NatParses(m, rest);
  }

  lemma LiteralParses(j: Json, rest: string)
    requires j.JNull? || j.JBool? || j.JNum?
    requires Delimited(rest)
    ensures ParseValue(Serialize(j) + rest) == Some((j, rest))
  {
    var s := Serialize(j) + rest;
    SerializeStart(j);
    NoWsSkip(s);
    match j
    case JNull =>
      assert s[..4] == "null" && s[4..] == rest;
    case JBool(b) =>
      if b {
        assert s[..4] == "true" && s[4..] == rest;
      } else {
        assert s[..5] == "false" && s[5..] == rest;
      }
    case JNum(n) =>
      NumberParses(n, rest);
      if n >= 0 {
        assert IsAsciiDigit(NatToString(n)[0]);
      }
  }

  lemma StringParses(str: string, rest: string)
    ensures ParseValue(Serialize(JStr(str)) + rest) == Some((JStr(str), rest))
  {
    var s := Serialize(JStr(str)) + rest;
    NoWsSkip(s);
    assert s[1..] == Escape(str) + "\"" + rest;
    EscapeParses(str, rest);
  }

  lemma {:induction false} ValueParses(j: Json, rest: string)
    requires WellFormed(j) && Delimited(rest)
    ensures ParseValue(Serialize(j) + rest) == Some((j, rest))
    decreases j, 2
  {
    match j
    case JStr(str) => StringParses(str, rest);
    case JArr(items) => ArrayParses(items, rest);
    case JObj(ms) => ObjectParses(ms, rest);
    case _ => LiteralParses(j, rest);
  }

  lemma {:induction false} ArrayParses(items: seq<Json>, rest: string)
    requires forall i :: 0 <= i < |items| ==> WellFormed(items[i])
    requires Delimited(rest)
    ensures ParseValue(Serialize(JArr(items)) + rest) == Some((JArr(items), rest))
    decreases items, 2
  {
    var b := SerializeItems(items);
    assert Serialize(JArr(items)) == "[" + b + "]";
    WrapShape("[", b, "]", rest);
    if |items| == 0 {
      assert b + "]" + rest == "]" + rest;
      ArrayUnfold("[" + b + "]" + rest);
    } else {
      SerializeStart(items[0]);
      SerializeItemsStart(items);
      assert (b + "]" + rest)[0] == Serialize(items[0])[0];
      ElementsParse(items, rest);
      ArrayUnfold("[" + b + "]" + rest);
    }
  }

  lemma ArrayUnfold(s: string)
    requires |s| > 0 && s[0] == '['
    ensures ParseValue(s) ==
      var u := SkipWs(s[1..]);
      if |u| > 0 && u[0] == ']' then Some((JArr([]), u[1..]))
      else
        match ParseElements(u)
        case Some((items, rest)) => Some((JArr(items), rest))
        case None => None
  {
    NoWsSkip(s);
  }

  lemma {:induction false} ObjectParses(ms: seq<(string, Json)>, rest: string)
    requires UniqueKeys(ms)
    requires forall i :: 0 <= i < |ms| ==> WellFormed(ms[i].1)
    requires Delimited(rest)
    ensures ParseValue(Serialize(JObj(ms)) + rest) == Some((JObj(ms), rest))
    decreases ms, 2
  {
    var b := SerializeMembers(ms);
    assert Serialize(JObj(ms)) == "{" + b + "}";
    WrapShape("{", b, "}", rest);
    if |ms| == 0 {
      assert b + "}" + rest == "}" + rest;
      ObjectUnfold("{" + b + "}" + rest);
    } else {
      SerializeMembersStart(ms);
      MembersParse(ms, [], rest);
      assert [] + ms == ms;
      ObjectUnfold("{" + b + "}" + rest);
    }
  }

  lemma ObjectUnfold(s: string)
    requires |s| > 0 && s[0] == '{'
    ensures ParseValue(s) ==
      var u := SkipWs(s[1..]);
      if |u| > 0 && u[0] == '}' then Some((JObj([]), u[1..]))
      else
        match ParseMembers(u, [])
        case Some((ms, rest)) => Some((JObj(ms), rest))
        case None => None
  {
    NoWsSkip(s);
  }

  lemma SerializeMembersStart(ms: seq<(string, Json)>)
    requires |ms| > 0
    ensures |SerializeMembers(ms)| > 0 && SerializeMembers(ms)[0] == '"'
  {
    var p := ms[0];
    var m := SerializeMember(p.0, p.1);
    assert m[0] == '"';
    if |ms| > 1 {
      assert SerializeMembers(ms) == m + "," + SerializeMembers(ms[1..]);
    }
  }

  lemma SerializeItemsStart(items: seq<Json>)
    requires |items| > 0
    ensures Serialize(items[0]) <= SerializeItems(items)
  {
  }

  lemma {:induction false} ElementsParse(items: seq<Json>, rest: string)
    requires |items| > 0
    requires forall i :: 0 <= i < |items| ==> WellFormed(items[i])
    requires Delimited(rest)
    ensures ParseElements(SerializeItems(items) + "]" + rest) == Some((items, rest))
    decreases items, 1
  {
    if |items| == 1 {
      var x := Serialize(items[0]);
      assert SerializeItems(items) == x;
      Regroup(x, "]", rest);
      ValueParses(items[0], "]" + rest);
      ElementsUnfold(x + ("]" + rest), items[0], "]" + rest);
      assert ("]" + rest)[1..] == rest;
      assert [items[0]] == items;
    } else {
      NextElementParses(items, rest);
    }
  }

  lemma {:induction false} NextElementParses(items: seq<Json>, rest: string)
    requires |items| > 1
    requires forall i :: 0 <= i < |items| ==> WellFormed(items[i])
    requires Delimited(rest)
    ensures ParseElements(SerializeItems(items) + "]" + rest) == Some((items, rest))
    decreases items, 0
  {
    var x := Serialize(items[0]);
    var y := SerializeItems(items[1..]);
    var after := y + "]" + rest;
    assert SerializeItems(items) == x + "," + y;
    CommaRegroup(x, y, "]", rest);
    ValueParses(items[0], "," + after);
    ElementsUnfold(x + ("," + after), items[0], "," + after);
    assert ("," + after)[1..] == after;
    ElementsParse(items[1..], rest);
    assert [items[0]] + items[1..] == items;
  }

  lemma CommaRegroup(x: string, y: string, close: string, rest: string)
    ensures x + "," + y + close + rest == x + ("," + (y + close + rest))
  {
  }

  /** The shape of a bracketed text followed by more text. */
  lemma WrapShape(open: string, body: string, close: string, rest: string)
    requires |open| == 1
    ensures var s := open + body + close + rest;
      s[0] == open[0] && s[1..] == body + close + rest
  {
    var s := open + body + close + rest;
    assert s == open + (body + close + rest);
  }

  lemma ElementsUnfold(s: string, j: Json, r: string)
    requires ParseValue(s) == Some((j, r))
    requires |r| > 0 && (r[0] == ',' || r[0] == ']')
    ensures ParseElements(s) ==
      if r[0] == ']' then Some(([j], r[1..]))
      else
        match ParseElements(r[1..])
        case Some((items, rest)) => Some(([j] + items, rest))
        case None => None
  {
    NoWsSkip(r);
  }

  /** One printed member `"k":j` followed by `,` or `}`. */
  lemma {:induction false} MemberStep(k: string, j: Json, after: string, acc: seq<(string, Json)>)
    requires WellFormed(j)
    requires |after| > 0 && (after[0] == ',' || after[0] == '}')
    ensures ParseMembers(SerializeMember(k, j) + after, acc) ==
      if after[0] == ',' then ParseMembers(after[1..], Put(acc, k, j))
      else Some((Put(acc, k, j), after[1..]))
    decreases j, 3
  {
    var v := Serialize(j);
    var s := SerializeMember(k, j) + after;
    var r1 := ":" + v + after;
    var e := Escape(k);
    assert SerializeMember(k, j) == "\"" + e + "\"" + ":" + v;
    MemberShape(e, v, after);
    EscapeParses(k, r1);
    assert r1[1..] == Serialize(j) + after;
    ValueParses(j, after);
    MembersUnfold(s, acc, k, r1, j, after);
  }

  lemma MemberShape(e: string, v: string, after: string)
    ensures var s := "\"" + e + "\"" + ":" + v + after;
      s[0] == '"' && s[1..] == e + "\"" + (":" + v + after) && (":" + v + after)[1..] == v + after
  {
    var s := "\"" + e + "\"" + ":" + v + after;
    assert s == "\"" + (e + "\"" + (":" + v + after));
  }

  lemma MembersUnfold(s: string, acc: seq<(string, Json)>, k: string, r1: string, j: Json, r3: string)
    requires |s| > 0 && s[0] == '"' && ParseString(s[1..]) == Some((k, r1))
    requires |r1| > 0 && r1[0] == ':' && ParseValue(r1[1..]) == Some((j, r3))
    requires |r3| > 0 && (r3[0] == ',' || r3[0] == '}')
    ensures ParseMembers(s, acc) ==
      if r3[0] == ',' then ParseMembers(r3[1..], Put(acc, k, j))
      else Some((Put(acc, k, j), r3[1..]))
  {
    NoWsSkip(s);
    NoWsSkip(r1);
    NoWsSkip(r3);
  }

  lemma FreshKey(acc: seq<(string, Json)>, ms: seq<(string, Json)>)
    requires |ms| > 0 && UniqueKeys(acc + ms)
    ensures !HasKey(acc, ms[0].0)
  {
    var all := acc + ms;
    forall i | 0 <= i < |acc|
      ensures acc[i].0 != ms[0].0
    {
      assert all[i] == acc[i] && all[|acc|] == ms[0];
    }
  }

  lemma {:induction false} MembersParse(ms: seq<(string, Json)>, acc: seq<(string, Json)>, rest: string)
    requires |ms| > 0
    requires UniqueKeys(acc + ms)
    requires forall i :: 0 <= i < |ms| ==> WellFormed(ms[i].1)
    requires Delimited(rest)
    ensures ParseMembers(SerializeMembers(ms) + "}" + rest, acc) == Some((acc + ms, rest))
    decreases ms, 1
  {
    if |ms| == 1 {
      var p := ms[0];
      assert p.1 < p;
      FreshKey(acc, ms);
      assert SerializeMembers(ms) == SerializeMember(p.0, p.1);
      LastMemberParses(p.0, p.1, acc, rest);
      assert acc + [p] == acc + ms;
    } else {
      NextMemberParses(ms, acc, rest);
    }
  }

  lemma {:induction false} NextMemberParses(ms: seq<(string, Json)>, acc: seq<(string, Json)>, rest: string)
    requires |ms| > 1
    requires UniqueKeys(acc + ms)
    requires forall i :: 0 <= i < |ms| ==> WellFormed(ms[i].1)
    requires Delimited(rest)
    ensures ParseMembers(SerializeMembers(ms) + "}" + rest, acc) == Some((acc + ms, rest))
    decreases ms, 0
  {
    var p := ms[0];
    assert p.1 < p;
    var tail := SerializeMembers(ms[1..]) + "}" + rest;
    FirstMemberSplit(ms, rest);
    MembersShift(ms, acc);
    MemberStep(p.0, p.1, "," + tail, acc);
    MembersParse(ms[1..], acc + [p], rest);
  }

  lemma FirstMemberSplit(ms: seq<(string, Json)>, rest: string)
    requires |ms| > 1
    ensures var tail := SerializeMembers(ms[1..]) + "}" + rest;
      SerializeMembers(ms) + "}" + rest == SerializeMember(ms[0].0, ms[0].1) + ("," + tail)
      && ("," + tail)[1..] == tail
  {
    MembersUnfoldTwo(ms);
    CommaJoin(SerializeMembers(ms), SerializeMember(ms[0].0, ms[0].1), SerializeMembers(ms[1..]), "}", rest);
  }

  lemma MembersUnfoldTwo(ms: seq<(string, Json)>)
    requires |ms| > 1
    ensures SerializeMembers(ms) == SerializeMember(ms[0].0, ms[0].1) + "," + SerializeMembers(ms[1..])
  {
  }

  /** Regrouping `a,b` followed by a suffix, with the strings kept abstract. */
  lemma CommaJoin(whole: string, a: string, b: string, close: string, rest: string)
    requires whole == a + "," + b
    ensures whole + close + rest == a + ("," + (b + close + rest)) && ("," + (b + close + rest))[1..] == b + close + rest
  {
    assert whole + close + rest == a + ("," + (b + close + rest));
  }

  lemma Regroup(a: string, b: string, c: string)
    ensures a + b + c == a + (b + c)
    ensures (b + c)[|b|..] == c
  {
  }

  lemma MembersShift(ms: seq<(string, Json)>, acc: seq<(string, Json)>)
    requires |ms| > 1
    requires UniqueKeys(acc + ms)
    requires forall i :: 0 <= i < |ms| ==> WellFormed(ms[i].1)
    ensures Put(acc, ms[0].0, ms[0].1) == acc + [ms[0]]
    ensures (acc + [ms[0]]) + ms[1..] == acc + ms
    ensures UniqueKeys((acc + [ms[0]]) + ms[1..])
    ensures forall i :: 0 <= i < |ms[1..]| ==> WellFormed(ms[1..][i].1)
  {
    FreshKey(acc, ms);
    assert (acc + [ms[0]]) + ms[1..] == acc + ms;
  }

  lemma {:induction false} LastMemberParses(k: string, j: Json, acc: seq<(string, Json)>, rest: string)
    requires WellFormed(j)
    ensures ParseMembers(SerializeMember(k, j) + "}" + rest, acc) == Some((Put(acc, k, j), rest))
    decreases j, 4
  {
    assert SerializeMember(k, j) + "}" + rest == SerializeMember(k, j) + ("}" + rest);
    MemberStep(k, j, "}" + rest, acc);
    assert ("}" + rest)[1..] == rest;
  }

  /** `JSON.parse(JSON.stringify(j))` gives `j` back. */
  lemma ParseSerialize(j: Json)
    requires WellFormed(j)
    ensures Parse(Serialize(j)) == Some(j)
  {
    assert Serialize(j) + "" == Serialize(j);
    ValueParses(j, "");
  }

  // ---- from values ----

  lemma {:induction false} FieldsToJsonKeys(fs: Fields, k: string)
    ensures HasKey(FieldsToJson(fs), k) ==> HasKey(fs, k)
    decreases fs
  {
    if |fs| > 0 {
      FieldsToJsonKeys(fs[1..], k);
      HasKeyCons(fs, k);
      var r := FieldsToJson(fs);
      if r != [] && r != FieldsToJson(fs[1..]) {
        HasKeyCons(r, k);
        assert r[1..] == FieldsToJson(fs[1..]);
      }
    }
  }

  lemma {:induction false} ToJsonWellFormed(v: Value)
    requires WellFormedValue(v) && !v.Undefined?
    ensures WellFormed(ToJson(v).value)
    decreases v, 1
  {
    match v
    case Arr(items) =>
      ItemsToJsonWellFormed(items);
    case Obj(fs) =>
      FieldsToJsonWellFormed(fs);
    case _ =>
  }

  lemma {:induction false} ItemsToJsonWellFormed(items: seq<Value>)
    requires forall i :: 0 <= i < |items| ==> WellFormedValue(items[i])
    ensures forall i :: 0 <= i < |items| ==> WellFormed(ItemsToJson(items)[i])
    decreases items, 0
  {
    if |items| > 0 {
      ItemsToJsonWellFormed(items[1..]);
      if !items[0].Undefined? {
        ToJsonWellFormed(items[0]);
      }
      var r := ItemsToJson(items);
      forall i | 1 <= i < |items| ensures WellFormed(r[i]) {
        assert r[i] == ItemsToJson(items[1..])[i - 1];
      }
    }
  }

  lemma {:induction false} FieldsToJsonWellFormed(fs: Fields)
    requires UniqueKeys(fs)
    requires forall i :: 0 <= i < |fs| ==> WellFormedValue(fs[i].1)
    ensures UniqueKeys(FieldsToJson(fs))
    ensures forall i :: 0 <= i < |FieldsToJson(fs)| ==> WellFormed(FieldsToJson(fs)[i].1)
    decreases fs, 0
  {
    if |fs| > 0 {
      var tail := FieldsToJson(fs[1..]);
      FieldsToJsonWellFormed(fs[1..]);
      var r := FieldsToJson(fs);
      var p := fs[0];
      assert p.1 < p;
      if !p.1.Undefined? {
        ToJsonWellFormed(p.1);
        assert r == [(fs[0].0, ToJson(fs[0].1).value)] + tail;
        FieldsToJsonKeys(fs[1..], fs[0].0);
        assert !HasKey(fs[1..], fs[0].0);
        forall a, b | 0 <= a < b < |r| ensures r[a].0 != r[b].0 {
          assert r[b] == tail[b - 1];
          if a == 0 {
            assert HasKey(tail, r[b].0);
          } else {
            assert r[a] == tail[a - 1];
          }
        }
        forall i | 1 <= i < |r| ensures WellFormed(r[i].1) {
          assert r[i] == tail[i - 1];
        }
      }
    }
  }

  /** `JSON.stringify` of any value other than `undefined` is read back by `JSON.parse`. */
  lemma StringifyParse(v: Value)
    requires WellFormedValue(v) && !v.Undefined?
    ensures Stringify(v).Some? && Parse(Stringify(v).value) == ToJson(v)
  {
    ToJsonWellFormed(v);
    ParseSerialize(ToJson(v).value);
  }
}
