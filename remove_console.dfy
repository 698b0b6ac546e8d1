/**
 * The `removeConsolePlugin` core: which files are transformed, which
 * `console` methods a level strips, and `stripConsoleCalls`, a hand-written
 * scanner that copies strings and comments verbatim and deletes each
 * `console.<method>(...)` call (with its trailing blanks and semicolons)
 * whose method is in the set.
 *
 * The scanner is specified by the function `Strip`, a recursive reading of
 * the same state machine; the method `StripConsoleCalls` is the loop,
 * proved equal to it.
 */
module RemoveConsole {
  import opened Common

  // ---- levels ----

  datatype Level = Off | Error | Warn | Info | Log | Debug | Trace

  /** `SEVERITY`: trace 10, debug 20, log 30, info 40, warn 50, error 60 (`off` has none). */
  function Severity(l: Level): int
    requires l != Off
  {
    match l
    case Trace => 10
    case Debug => 20
    case Log => 30
    case Info => 40
    case Warn => 50
    case Error => 60
  }

  /** The method names, in the order `buildMethodsToStrip` lists them. */
  function AllMethods(): seq<(string, Level)> {
    [("trace", Trace), ("debug", Debug), ("log", Log), ("info", Info), ("warn", Warn), ("error", Error)]
  }

  /**
   * `buildMethodsToStrip(level, custom)`: a non-empty custom list wins;
   * `off` strips nothing; otherwise every method strictly less severe than
   * the level.
   */
  function MethodsToStrip(level: Level, custom: Option<seq<string>>): (r: set<string>)
    ensures custom.Some? && |custom.value| > 0 ==> r == set m | m in custom.value
    ensures (custom.None? || |custom.value| == 0) && level == Off ==> r == {}
  {
    if custom.Some? && |custom.value| > 0 then set m | m in custom.value
    else if level == Off then {}
    else set p | p in AllMethods() && Severity(p.1) < Severity(level) :: p.0
  }

  /** Without a custom list, a level other than `off` strips exactly the named methods below it. */
  lemma StripsBelowLevel(level: Level, name: string)
    requires level != Off
    ensures name in MethodsToStrip(level, None) <==>
      exists p :: p in AllMethods() && p.0 == name && Severity(p.1) < Severity(level)
  {
  }

  /** The default level `warn` strips `trace`, `debug`, `log` and `info`. */
  lemma DefaultLevelStrips()
    ensures MethodsToStrip(Warn, None) == {"trace", "debug", "log", "info"}
  {
    var r := MethodsToStrip(Warn, None);
    assert ("trace", Trace) in AllMethods() && ("debug", Debug) in AllMethods();
    assert ("log", Log) in AllMethods() && ("info", Info) in AllMethods();
    assert forall m :: m in r ==> m in {"trace", "debug", "log", "info"};
  }

  // ---- which files ----

  /** `/\.[mc]?jsx?$/` or `/\.[mc]?tsx?$/`. */
  predicate ScriptExtension(id: string) {
    exists pre, lang :: pre in {"", "m", "c"} && lang in {"js", "ts"} &&
      (EndsWith(id, "." + pre + lang) || EndsWith(id, "." + pre + lang + "x"))
  }

  /**
   * `shouldProcess`: an exclude match rejects; a non-empty include list
   * must match; a `.vue` file needs `processVue`; any other file needs a
   * script extension. The user's regular expressions are predicates.
   */
  function ShouldProcess(id: string, includes: Option<seq<string -> bool>>, excludes: Option<seq<string -> bool>>, processVue: bool): (b: bool)
    ensures excludes.Some? && (exists t :: 0 <= t < |excludes.value| && excludes.value[t](id)) ==> !b
    ensures b ==> includes.None? || |includes.value| == 0 || exists t :: 0 <= t < |includes.value| && includes.value[t](id)
    ensures b && EndsWith(id, ".vue") ==> processVue
    ensures b && !EndsWith(id, ".vue") ==> ScriptExtension(id)
    ensures (!(excludes.Some? && exists t :: 0 <= t < |excludes.value| && excludes.value[t](id)) &&
             (includes.None? || |includes.value| == 0 || exists t :: 0 <= t < |includes.value| && includes.value[t](id)) &&
             (if EndsWith(id, ".vue") then processVue else ScriptExtension(id))) ==> b
  {
    var inIncludes := includes.None? || |includes.value| == 0 || exists t :: 0 <= t < |includes.value| && includes.value[t](id);
    var inExcludes := excludes.Some? && exists t :: 0 <= t < |excludes.value| && excludes.value[t](id);
    if inExcludes then false
    else if !inIncludes then false
    else if EndsWith(id, ".vue") then processVue
    else ScriptExtension(id)
  }

  /** With no include or exclude lists, a `.ts` file is processed. */
  lemma TypeScriptProcessed(id: string)
    requires EndsWith(id, ".ts") && !EndsWith(id, ".vue")
    ensures ShouldProcess(id, None, None, true)
  {
    assert EndsWith(id, "." + "" + "ts");
  }

  // ---- the scanner ----

  /** Where the scanner stands: in code, inside a string opened by `quote`, or inside a comment. */
  datatype Mode = Code | InString(quote: char) | LineComment | BlockComment

  predicate IsQuote(c: char) {
    c == '"' || c == '\'' || c == '`'
  }

  /** `code[i] === c`, false past the end. */
  predicate At(code: string, i: nat, c: char) {
    i < |code| && code[i] == c
  }

  /** The index after the ASCII letters starting at `j` (`/[a-z]/i`). */
  function LettersEnd(code: string, j: nat): (r: nat)
    requires j <= |code|
    ensures j <= r <= |code|
    ensures forall t :: j <= t < r ==> IsAsciiLetter(code[t])
    ensures r < |code| ==> !IsAsciiLetter(code[r])
    decreases |code| - j
  {
    if j < |code| && IsAsciiLetter(code[j]) then LettersEnd(code, j + 1) else j
  }

  /** The index after the whitespace starting at `j` (`/\s/`). */
  function SpacesEnd(code: string, j: nat): (r: nat)
    requires j <= |code|
    ensures j <= r <= |code|
    ensures forall t :: j <= t < r ==> IsJsWhitespace(code[t])
    decreases |code| - j
  {
    if j < |code| && IsJsWhitespace(code[j]) then SpacesEnd(code, j + 1) else j
  }

  /** The index after the blanks and semicolons starting at `k` (`/[\s;]/`); `k` itself when past the end. */
  function TrailEnd(code: string, k: nat): (r: nat)
    ensures r >= k
    ensures k <= |code| ==> r <= |code|
    ensures forall t :: k <= t < r ==> t < |code| && (IsJsWhitespace(code[t]) || code[t] == ';')
    decreases |code| - k
  {
    if k < |code| && (IsJsWhitespace(code[k]) || code[k] == ';') then TrailEnd(code, k + 1) else k
  }

  /**
   * The inner loop that finds the end of a call: from `k` with `depth` open
   * parentheses, skipping strings, and ignoring parentheses inside comments.
   * The result is the index after the closing parenthesis, or the end of
   * the text (one past it after a final escape or comment opener) when the
   * call never closes.
   */
  function MatchEnd(code: string, k: nat, depth: int, lm: Mode): (r: nat)
    requires k <= |code| + 1
    ensures k <= r <= |code| + 1
    ensures k < |code| ==> r > k
    decreases |code| + 1 - k
  {
    if k >= |code| then k
    else
      var c := code[k];
      if lm == LineComment && c == '\n' then MatchEnd(code, k + 1, depth, Code)
      else if lm == BlockComment && c == '*' && At(code, k + 1, '/') then MatchEnd(code, k + 2, depth, Code)
      else if lm == Code && c == '/' && At(code, k + 1, '/') then MatchEnd(code, k + 2, depth, LineComment)
      else if lm == Code && c == '/' && At(code, k + 1, '*') then MatchEnd(code, k + 2, depth, BlockComment)
      else if lm == Code && IsQuote(c) then MatchEnd(code, k + 1, depth, InString(c))
      else if lm.InString? then
        if c == '\\' then MatchEnd(code, k + 2, depth, lm)
        else if c == lm.quote then MatchEnd(code, k + 1, depth, Code)
        else MatchEnd(code, k + 1, depth, lm)
      else if lm == Code && c == '(' then MatchEnd(code, k + 1, depth + 1, lm)
      else if lm == Code && c == ')' then (if depth - 1 == 0 then k + 1 else MatchEnd(code, k + 1, depth - 1, lm))
      else MatchEnd(code, k + 1, depth, lm)
  }

  /**
   * The call-end loop as written: a character inside a comment falls through
   * to the parenthesis count, so a `)` in a comment can close the call.
   */
  function MatchEndAsWritten(code: string, k: nat, depth: int, lm: Mode): (r: nat)
    requires k <= |code| + 1
    ensures k <= r <= |code| + 1
    ensures k < |code| ==> r > k
    decreases |code| + 1 - k
  {
    if k >= |code| then k
    else
      var c := code[k];
      if lm == LineComment && c == '\n' then MatchEndAsWritten(code, k + 1, depth, Code)
      else if lm == BlockComment && c == '*' && At(code, k + 1, '/') then MatchEndAsWritten(code, k + 2, depth, Code)
      else if lm == Code && c == '/' && At(code, k + 1, '/') then MatchEndAsWritten(code, k + 2, depth, LineComment)
      else if lm == Code && c == '/' && At(code, k + 1, '*') then MatchEndAsWritten(code, k + 2, depth, BlockComment)
      else if lm == Code && IsQuote(c) then MatchEndAsWritten(code, k + 1, depth, InString(c))
      else if lm.InString? then
        if c == '\\' then MatchEndAsWritten(code, k + 2, depth, lm)
        else if c == lm.quote then MatchEndAsWritten(code, k + 1, depth, Code)
        else MatchEndAsWritten(code, k + 1, depth, lm)
      else if c == '(' then MatchEndAsWritten(code, k + 1, depth + 1, lm)
      else if c == ')' then (if depth - 1 == 0 then k + 1 else MatchEndAsWritten(code, k + 1, depth - 1, lm))
      else MatchEndAsWritten(code, k + 1, depth, lm)
  }

  /**
   * When a stripped call starts at `i`: `console.`, a method name in the set,
   * optional whitespace and `(`. The result is where scanning resumes: after
   * the closing parenthesis and any trailing blanks and semicolons.
   */
  function CallEnd(code: string, methods: set<string>, i: nat): (r: Option<nat>)
    requires i < |code|
    ensures r.Some? ==> i < r.value <= |code| + 1
    ensures r.Some? ==> i + 8 <= |code| && code[i..i + 8] == "console."
    ensures r.Some? ==> code[i + 8..LettersEnd(code, i + 8)] in methods
    ensures r.Some? <==>
      i + 8 <= |code| && code[i..i + 8] == "console." &&
      code[i + 8..LettersEnd(code, i + 8)] in methods &&
      At(code, SpacesEnd(code, LettersEnd(code, i + 8)), '(')
    ensures r.Some? ==> r.value == TrailEnd(code, MatchEndAsWritten(code, SpacesEnd(code, LettersEnd(code, i + 8)), 0, Code))
  {
    if i + 8 <= |code| && code[i..i + 8] == "console." then
      var j := LettersEnd(code, i + 8);
      if code[i + 8..j] !in methods then None
      else
        var open := SpacesEnd(code, j);
        if At(code, open, '(') then Some(TrailEnd(code, MatchEndAsWritten(code, open, 0, Code))) else None
    else None
  }

  /** The text from `i` on (empty past the end). */
  function Rest(code: string, i: nat): string {
    if i <= |code| then code[i..] else ""
  }

  /** One move of the scanner: the text it writes, where it goes on, and in which mode. */
  datatype Move = Move(piece: string, next: nat, mode: Mode)

  /** The scanner at `i` in mode `m`: a comment or string delimiter switches mode, a stripped call is skipped. */
  function Step(code: string, methods: set<string>, i: nat, m: Mode): (e: Move)
    requires i < |code|
    ensures i < e.next <= |code| + 1
    ensures |e.piece| <= e.next - i && |e.piece| <= |code| - i
  {
    var ch := code[i];
    if m == LineComment && ch == '\n' then Move([ch], i + 1, Code)
    else if m == BlockComment && ch == '*' && At(code, i + 1, '/') then Move("*/", i + 2, Code)
    else if m == Code && ch == '/' && At(code, i + 1, '/') then Move("//", i + 2, LineComment)
    else if m == Code && ch == '/' && At(code, i + 1, '*') then Move("/*", i + 2, BlockComment)
    else if m == Code && IsQuote(ch) then Move([ch], i + 1, InString(ch))
    else if m.InString? then
      if ch == '\\' then Move(if i + 1 < |code| then [ch, code[i + 1]] else [ch], i + 2, m)
      else Move([ch], i + 1, if ch == m.quote then Code else m)
    else if m == Code && ch == 'c' && CallEnd(code, methods, i).Some? then Move("", CallEnd(code, methods, i).value, Code)
    else Move([ch], i + 1, m)
  }

  /** What the scanner writes for the text from `i`, starting in mode `m`. */
  function Scan(code: string, methods: set<string>, i: nat, m: Mode): (r: string)
    requires i <= |code| + 1
    ensures |r| <= |Rest(code, i)|
    decreases |code| + 1 - i
  {
    if i >= |code| then ""
    else
      var e := Step(code, methods, i, m);
      e.piece + Scan(code, methods, e.next, e.mode)
  }

  /** `stripConsoleCalls(code, methods)`. */
  function Strip(code: string, methods: set<string>): (r: string)
    ensures |r| <= |code|
  {
    Scan(code, methods, 0, Code)
  }

  /**
   * A stripped call met in code is deleted: the scanner writes nothing for
   * it and goes on after its closing parenthesis and trailing blanks.
   */
  lemma ScanSkipsCall(code: string, methods: set<string>, i: nat)
    requires i < |code| && CallEnd(code, methods, i).Some?
    ensures Scan(code, methods, i, Code) == Scan(code, methods, CallEnd(code, methods, i).value, Code)
  {
    assert code[i] == code[i..i + 8][0] == 'c';
  }

  /**
   * `console.log(1);` followed by more code: nothing is written for the call
   * and its semicolon, and scanning goes on at the code after them.
   */
  lemma StripRemovesCall(code: string, rest: string)
    requires code == "console.log(1);" + rest
    requires |rest| > 0 && rest[0] != ';' && !IsJsWhitespace(rest[0])
    ensures Strip(code, {"log"}) == Scan(code, {"log"}, 15, Code)
  {
    assert code[0..8] == "console.";
    assert LettersEnd(code, 11) == 11;
    assert LettersEnd(code, 10) == 11;
    assert LettersEnd(code, 9) == 11;
    assert LettersEnd(code, 8) == 11;
    assert code[8..11] == "log";
    assert SpacesEnd(code, 11) == 11;
    assert MatchEndAsWritten(code, 13, 1, Code) == 14;
    assert MatchEndAsWritten(code, 12, 1, Code) == 14;
    assert MatchEndAsWritten(code, 11, 0, Code) == 14;
    assert TrailEnd(code, 15) == 15;
    assert TrailEnd(code, 14) == 15;
    ScanSkipsCall(code, {"log"}, 0);
  }

  // ---- the scanner as a loop ----

  /** The method-name loop: the ASCII letters from `j`. */
  method ReadMethodName(code: string, j: nat) returns (name: string, end: nat)
    requires j <= |code|
    ensures end == LettersEnd(code, j) && name == code[j..end]
  {
    name := "";
    end := j;
    while end < |code| && IsAsciiLetter(code[end])
      invariant j <= end <= |code|
      invariant name == code[j..end]
      invariant LettersEnd(code, end) == LettersEnd(code, j)
      decreases |code| - end
    {
      name := name + [code[end]];
      end := end + 1;
    }
  }

  /** The whitespace loop between the method name and `(`. */
  method SkipSpaces(code: string, j: nat) returns (end: nat)
    requires j <= |code|
    ensures end == SpacesEnd(code, j)
  {
    end := j;
    while end < |code| && IsJsWhitespace(code[end])
      invariant j <= end <= |code|
      invariant SpacesEnd(code, end) == SpacesEnd(code, j)
      decreases |code| - end
    {
      end := end + 1;
    }
  }

  /** The loop that skips blanks and semicolons after a removed call. */
  method SkipTrailing(code: string, k: nat) returns (end: nat)
    ensures end == TrailEnd(code, k)
  {
    end := k;
    while end < |code| && (IsJsWhitespace(code[end]) || code[end] == ';')
      invariant k <= end
      invariant TrailEnd(code, end) == TrailEnd(code, k)
      decreases |code| - end
    {
      end := end + 1;
    }
  }

  /** The parenthesis-matching loop, from the `(` at `open`, with the comment branches falling through as written. */
  method FindCallEnd(code: string, open: nat) returns (k: nat)
    requires At(code, open, '(')
    ensures k == MatchEndAsWritten(code, open, 0, Code)
  {
    k := open;
    var depth := 0;
    var lm := Code;
    while k < |code|
      invariant open <= k <= |code| + 1
      invariant MatchEndAsWritten(code, k, depth, lm) == MatchEndAsWritten(code, open, 0, Code)
      decreases |code| + 1 - k
    {
      var c := code[k];
      if lm == LineComment && c == '\n' {
        lm := Code;
        k := k + 1;
      } else if lm == BlockComment && c == '*' && At(code, k + 1, '/') {
        lm := Code;
        k := k + 2;
      } else if lm == Code && c == '/' && At(code, k + 1, '/') {
        lm := LineComment;
        k := k + 2;
      } else if lm == Code && c == '/' && At(code, k + 1, '*') {
        lm := BlockComment;
        k := k + 2;
      } else if lm == Code && IsQuote(c) {
        lm := InString(c);
        k := k + 1;
      } else if lm.InString? {
        if c == '\\' {
          k := k + 2;
        } else {
          if c == lm.quote {
            lm := Code;
          }
          k := k + 1;
        }
      } else if c == '(' {
        depth := depth + 1;
        k := k + 1;
      } else if c == ')' {
        depth := depth - 1;
        k := k + 1;
        if depth == 0 {
          break;
        }
      } else {
        k := k + 1;
      }
    }
  }

  /**
   * The body of the `console.` branch: read the method name, skip to `(`,
   * match the call and its trailing blanks and semicolons. `None` when the
   * method is not stripped or no `(` follows.
   */
  method MatchCall(code: string, methods: set<string>, i: nat) returns (end: Option<nat>)
    requires i + 8 <= |code| && code[i..i + 8] == "console."
    ensures end == CallEnd(code, methods, i)
  {
    var name, j := ReadMethodName(code, i + 8);
    if name !in methods {
      return None;
    }
    var open := SkipSpaces(code, j);
    if !At(code, open, '(') {
      return None;
    }
    var k := FindCallEnd(code, open);
    k := SkipTrailing(code, k);
    return Some(k);
  }

  /**
   * `stripConsoleCalls`: one pass over the text, copying strings and
   * comments, and dropping each call whose method is in `methods`.
   */
  method StripConsoleCalls(code: string, methods: set<string>) returns (out: string)
    ensures out == Strip(code, methods)
  {
    out := "";
    var i := 0;
    var mode := Code;
    while i < |code|
      invariant i <= |code| + 1
      invariant out + Scan(code, methods, i, mode) == Strip(code, methods)
      decreases |code| + 1 - i
    {
      var ch := code[i];
      var piece, next, nextMode := [ch], i + 1, mode;
      if mode == LineComment && ch == '\n' {
        nextMode := Code;
      } else if mode == BlockComment && ch == '*' && At(code, i + 1, '/') {
        piece, next, nextMode := "*/", i + 2, Code;
      } else if mode == Code && ch == '/' && At(code, i + 1, '/') {
        piece, next, nextMode := "//", i + 2, LineComment;
      } else if mode == Code && ch == '/' && At(code, i + 1, '*') {
        piece, next, nextMode := "/*", i + 2, BlockComment;
      } else if mode == Code && IsQuote(ch) {
        nextMode := InString(ch);
      } else if mode.InString? {
        if ch == '\\' {
          piece, next := if i + 1 < |code| then [ch, code[i + 1]] else [ch], i + 2;
        } else if ch == mode.quote {
          nextMode := Code;
        }
      } else if mode == Code && ch == 'c' && i + 8 <= |code| && code[i..i + 8] == "console." {
        var end := MatchCall(code, methods, i);
        if end.Some? {
          piece, next := "", end.value;
        }
      }
      assert Step(code, methods, i, mode) == Move(piece, next, nextMode);
      AppendAssoc(out, piece, Scan(code, methods, next, nextMode));
      out, i, mode := out + piece, next, nextMode;
    }
  }

  lemma AppendAssoc(a: string, b: string, c: string)
    ensures (a + b) + c == a + (b + c)
  {
  }

  // ---- what the scanner does ----

  /** `a` is `b` with some characters deleted. */
  predicate Subsequence(a: string, b: string)
    decreases |b|
  {
    |a| == 0 || (|b| > 0 && ((a[0] == b[0] && Subsequence(a[1..], b[1..])) || Subsequence(a, b[1..])))
  }

  lemma {:induction false} SubsequenceSkip(a: string, b: string, n: nat)
    requires n <= |b| && Subsequence(a, b[n..])
    ensures Subsequence(a, b)
    decreases n
  {
    if n > 0 {
      assert b[n - 1..][1..] == b[n..];
      SubsequenceSkip(a, b, n - 1);
    }
  }

  lemma KeepOne(code: string, i: nat, s: string)
    requires i < |code| && Subsequence(s, Rest(code, i + 1))
    ensures Subsequence([code[i]] + s, Rest(code, i))
  {
    assert ([code[i]] + s)[1..] == s;
    assert Rest(code, i)[1..] == Rest(code, i + 1);
  }

  lemma KeepTwo(code: string, i: nat, s: string)
    requires i + 1 < |code| && Subsequence(s, Rest(code, i + 2))
    ensures Subsequence([code[i], code[i + 1]] + s, Rest(code, i))
  {
    KeepOne(code, i + 1, s);
    KeepOne(code, i, [code[i + 1]] + s);
    assert [code[i], code[i + 1]] + s == [code[i]] + ([code[i + 1]] + s);
  }

  /** A move passes over one character or two, writing what it passes over, or skips a call writing nothing. */
  lemma StepShape(code: string, methods: set<string>, i: nat, m: Mode)
    requires i < |code|
    ensures var e := Step(code, methods, i, m);
      (e.piece == "" && CallEnd(code, methods, i).Some?)
      || (e.next == i + 1 && e.piece == [code[i]])
      || (e.next == i + 2 && i + 1 < |code| && e.piece == [code[i], code[i + 1]])
      || (e.next == i + 2 && i + 1 == |code| && e.piece == [code[i]])
  {
  }

  lemma SkipSubsequence(code: string, i: nat, n: nat, s: string)
    requires i < n <= |code| + 1 && Subsequence(s, Rest(code, n))
    ensures Subsequence(s, Rest(code, i))
  {
    if n <= |code| {
      assert Rest(code, i)[n - i..] == Rest(code, n);
      SubsequenceSkip(s, Rest(code, i), n - i);
    } else {
      SubsequenceShorter(s, Rest(code, n));
      assert s == "";
    }
  }

  lemma KeepLast(code: string, i: nat, n: nat, s: string)
    requires i < |code| && (n == i + 1 || (n == i + 2 && i + 1 == |code|)) && Subsequence(s, Rest(code, n))
    ensures Subsequence([code[i]] + s, Rest(code, i))
  {
    assert Rest(code, i + 1) == Rest(code, n);
    KeepOne(code, i, s);
  }

  /** One move writes the characters it passes over, or nothing when it skips a call. */
  lemma StepSubsequence(code: string, methods: set<string>, i: nat, m: Mode, s: string)
    requires i < |code| && Subsequence(s, Rest(code, Step(code, methods, i, m).next))
    ensures Subsequence(Step(code, methods, i, m).piece + s, Rest(code, i))
  {
    var e := Step(code, methods, i, m);
    StepShape(code, methods, i, m);
    if e.piece == "" {
      SkipSubsequence(code, i, e.next, s);
      assert e.piece + s == s;
    } else if e.next == i + 2 && i + 1 < |code| {
      KeepTwo(code, i, s);
    } else {
      KeepLast(code, i, e.next, s);
    }
  }

  /** From any position and mode, the scanner only deletes characters. */
  lemma {:induction false} ScanSubsequence(code: string, methods: set<string>, i: nat, m: Mode)
    requires i <= |code| + 1
    ensures Subsequence(Scan(code, methods, i, m), Rest(code, i))
    decreases |code| + 1 - i
  {
    if i < |code| {
      var e := Step(code, methods, i, m);
      ScanSubsequence(code, methods, e.next, e.mode);
      StepSubsequence(code, methods, i, m, Scan(code, methods, e.next, e.mode));
    }
  }

  /** The output of `stripConsoleCalls` is its input with characters deleted. */
  lemma StripSubsequence(code: string, methods: set<string>)
    ensures Subsequence(Strip(code, methods), code)
    ensures |Strip(code, methods)| <= |code|
  {
    ScanSubsequence(code, methods, 0, Code);
    SubsequenceShorter(Strip(code, methods), code);
  }

  lemma {:induction false} SubsequenceShorter(a: string, b: string)
    requires Subsequence(a, b)
    ensures |a| <= |b|
    decreases |b|
  {
    if |a| > 0 {
      if a[0] == b[0] && Subsequence(a[1..], b[1..]) {
        SubsequenceShorter(a[1..], b[1..]);
      } else {
        SubsequenceShorter(a, b[1..]);
      }
    }
  }

  /** No stripped call starts at or after `i`. */
  predicate NoCallFrom(code: string, methods: set<string>, i: nat) {
    forall p :: i <= p < |code| ==> CallEnd(code, methods, p).None?
  }

  lemma RestCons(code: string, i: nat)
    requires i < |code|
    ensures Rest(code, i) == [code[i]] + Rest(code, i + 1)
  {
  }

  lemma CopyOne(code: string, i: nat, n: nat)
    requires i < |code| && (n == i + 1 || (n == i + 2 && i + 1 == |code|))
    ensures [code[i]] + Rest(code, n) == Rest(code, i)
  {
    RestCons(code, i);
    assert Rest(code, i + 1) == Rest(code, n);
  }

  lemma CopyTwo(code: string, i: nat)
    requires i + 1 < |code|
    ensures [code[i], code[i + 1]] + Rest(code, i + 2) == Rest(code, i)
  {
    RestCons(code, i);
    RestCons(code, i + 1);
    AppendAssoc([code[i]], [code[i + 1]], Rest(code, i + 2));
  }

  /** Where no call starts, one move writes exactly the characters it passes over. */
  lemma StepCopies(code: string, methods: set<string>, i: nat, m: Mode)
    requires i < |code| && CallEnd(code, methods, i).None?
    ensures Step(code, methods, i, m).piece + Rest(code, Step(code, methods, i, m).next) == Rest(code, i)
  {
    var e := Step(code, methods, i, m);
    StepShape(code, methods, i, m);
    if e.next == i + 2 && i + 1 < |code| {
      CopyTwo(code, i);
    } else {
      CopyOne(code, i, e.next);
    }
  }

  /** Without a call to strip, the scanner copies its input, whatever the mode. */
  lemma {:induction false} ScanCopies(code: string, methods: set<string>, i: nat, m: Mode)
    requires i <= |code| + 1 && NoCallFrom(code, methods, i)
    ensures Scan(code, methods, i, m) == Rest(code, i)
    decreases |code| + 1 - i
  {
    if i < |code| {
      var e := Step(code, methods, i, m);
      ScanCopies(code, methods, e.next, e.mode);
      StepCopies(code, methods, i, m);
    }
  }

  /** With no methods to strip, `stripConsoleCalls` returns its input. */
  lemma StripNothing(code: string)
    ensures Strip(code, {}) == code
  {
    ScanCopies(code, {}, 0, Code);
  }

  lemma {:induction false} NotContainedAnywhere(s: string, sub: string, p: nat)
    requires !Contains(s, sub) && p <= |s|
    ensures !StartsWith(s[p..], sub)
    decreases p
  {
    if p > 0 {
      assert s[1..][p - 1..] == s[p..];
      NotContainedAnywhere(s[1..], sub, p - 1);
    }
  }

  /** Text in which `console.` never occurs comes back unchanged. */
  lemma StripWithoutConsole(code: string, methods: set<string>)
    requires !Contains(code, "console.")
    ensures Strip(code, methods) == code
  {
    forall p | 0 <= p < |code|
      ensures CallEnd(code, methods, p).None?
    {
      NotContainedAnywhere(code, "console.", p);
      if p + 8 <= |code| {
        assert code[p..][..8] == code[p..p + 8];
      }
    }
    ScanCopies(code, methods, 0, Code);
  }

  lemma SliceCons(code: string, i: nat, j: nat)
    requires i < j <= |code|
    ensures code[i..j] == [code[i]] + code[i + 1..j]
  {
  }

  /** A line comment is copied verbatim up to its newline. */
  lemma {:induction false} LineCommentVerbatim(code: string, methods: set<string>, i: nat, j: nat)
    requires i <= j <= |code|
    requires forall t :: i <= t < j ==> code[t] != '\n'
    ensures Scan(code, methods, i, LineComment) == code[i..j] + Scan(code, methods, j, LineComment)
    decreases j - i
  {
    if i < j {
      assert Step(code, methods, i, LineComment) == Move([code[i]], i + 1, LineComment);
      LineCommentVerbatim(code, methods, i + 1, j);
      SliceCons(code, i, j);
      AppendAssoc([code[i]], code[i + 1..j], Scan(code, methods, j, LineComment));
    }
  }

  /** A block comment is copied verbatim up to its `*` `/`. */
  lemma {:induction false} BlockCommentVerbatim(code: string, methods: set<string>, i: nat, j: nat)
    requires i <= j <= |code|
    requires forall t :: i <= t < j ==> !(code[t] == '*' && At(code, t + 1, '/'))
    ensures Scan(code, methods, i, BlockComment) == code[i..j] + Scan(code, methods, j, BlockComment)
    decreases j - i
  {
    if i < j {
      assert Step(code, methods, i, BlockComment) == Move([code[i]], i + 1, BlockComment);
      BlockCommentVerbatim(code, methods, i + 1, j);
      SliceCons(code, i, j);
      AppendAssoc([code[i]], code[i + 1..j], Scan(code, methods, j, BlockComment));
    }
  }

  /** One character of a string body other than a backslash or the closing quote. */
  lemma StringStep(code: string, methods: set<string>, q: char, i: nat)
    requires i < |code| && code[i] != '\\' && code[i] != q
    ensures Scan(code, methods, i, InString(q)) == [code[i]] + Scan(code, methods, i + 1, InString(q))
  {
    assert Step(code, methods, i, InString(q)) == Move([code[i]], i + 1, InString(q));
  }

  /** The body of a string literal is copied verbatim, `console.` calls included. */
  lemma {:induction false} StringVerbatim(code: string, methods: set<string>, q: char, i: nat, j: nat)
    requires i <= j <= |code|
    requires forall t :: i <= t < j ==> code[t] != '\\' && code[t] != q
    ensures Scan(code, methods, i, InString(q)) == code[i..j] + Scan(code, methods, j, InString(q))
    decreases j - i
  {
    if i < j {
      StringStep(code, methods, q, i);
      StringVerbatim(code, methods, q, i + 1, j);
      SliceCons(code, i, j);
      AppendAssoc([code[i]], code[i + 1..j], Scan(code, methods, j, InString(q)));
    }
  }

  /** Inside a block comment the call matcher ignores every character, parentheses included. */
  lemma {:induction false} MatchEndSkipsBlockComment(code: string, k: nat, j: nat, depth: int)
    requires k <= j <= |code|
    requires forall t :: k <= t < j ==> !(code[t] == '*' && At(code, t + 1, '/'))
    ensures MatchEnd(code, k, depth, BlockComment) == MatchEnd(code, j, depth, BlockComment)
    decreases j - k
  {
    if k < j {
      MatchEndSkipsBlockComment(code, k + 1, j, depth);
    }
  }

  /** Inside a line comment the call matcher ignores every character up to the newline. */
  lemma {:induction false} MatchEndSkipsLineComment(code: string, k: nat, j: nat, depth: int)
    requires k <= j <= |code|
    requires forall t :: k <= t < j ==> code[t] != '\n'
    ensures MatchEnd(code, k, depth, LineComment) == MatchEnd(code, j, depth, LineComment)
    decreases j - k
  {
    if k < j {
      MatchEndSkipsLineComment(code, k + 1, j, depth);
    }
  }

  /**
   * A `)` inside a comment closes the call as written, leaving the rest of
   * the comment and the real `)` behind; the corrected matcher reaches the
   * end of the call.
   */
  lemma CommentParenClosesCall()
    ensures var code := "console.log(1 /* ) */)";
      MatchEndAsWritten(code, 11, 0, Code) == 18 && code[TrailEnd(code, 18)..] == "*/)" &&
      MatchEnd(code, 11, 0, Code) == 22 && TrailEnd(code, 22) == |code|
  {
    CommentParenAsWritten();
    CommentParenCorrected();
  }

  lemma CommentParenAsWritten()
    ensures var code := "console.log(1 /* ) */)";
      MatchEndAsWritten(code, 11, 0, Code) == 18 && code[TrailEnd(code, 18)..] == "*/)"
  {
    var code := "console.log(1 /* ) */)";
    assert MatchEndAsWritten(code, 17, 1, BlockComment) == 18;
    assert MatchEndAsWritten(code, 14, 1, Code) == MatchEndAsWritten(code, 16, 1, BlockComment);
  }

  /** The whole pass on the same input: the tail of the comment and the real `)` stay in the output. */
  lemma StripLeavesCommentTail()
    ensures Strip("console.log(1 /* ) */)", {"log"}) == "*/)"
  {
    CommentCallSkipped();
    CommentTailCopied();
  }

  lemma CommentCallSkipped()
    ensures Step("console.log(1 /* ) */)", {"log"}, 0, Code) == Move("", 19, Code)
  {
    CommentCallEnd();
  }

  lemma CommentCallEnd()
    ensures CallEnd("console.log(1 /* ) */)", {"log"}, 0) == Some(19)
  {
    var code := "console.log(1 /* ) */)";
    CommentParenAsWritten();
    assert code[0..8] == "console.";
    assert LettersEnd(code, 11) == 11;
    assert LettersEnd(code, 10) == 11;
    assert LettersEnd(code, 9) == 11;
    assert LettersEnd(code, 8) == 11;
    assert code[8..11] == "log";
    assert SpacesEnd(code, 11) == 11;
    assert TrailEnd(code, 18) == 19;
  }

  lemma CommentTailCopied()
    ensures Scan("console.log(1 /* ) */)", {"log"}, 19, Code) == "*/)"
  {
    var code := "console.log(1 /* ) */)";
    assert Step(code, {"log"}, 21, Code) == Move(")", 22, Code);
    assert Scan(code, {"log"}, 21, Code) == ")";
    assert Step(code, {"log"}, 20, Code) == Move("/", 21, Code);
    assert Step(code, {"log"}, 19, Code) == Move("*", 20, Code);
  }

  lemma CommentParenCorrected()
    ensures var code := "console.log(1 /* ) */)";
      MatchEnd(code, 11, 0, Code) == 22 && TrailEnd(code, 22) == |code|
  {
    var code := "console.log(1 /* ) */)";
    assert MatchEnd(code, 21, 1, Code) == 22;
    MatchEndSkipsBlockComment(code, 16, 19, 1);
    assert MatchEnd(code, 19, 1, BlockComment) == 22;
  }


  // ---- the plugin ----

  /** `RemoveConsoleOptions`; absent fields take their defaults in `RemoveConsolePlugin`. */
  datatype Options = Options(
    level: Option<Level>,
    stripInDev: Option<bool>,
    stripInBuild: Option<bool>,
    methods: Option<seq<string>>,
    includes: Option<seq<string -> bool>>,
    excludes: Option<seq<string -> bool>>,
    processVue: Option<bool>)

  /** What the plugin closes over. */
  datatype Plugin = Plugin(
    methods: set<string>,
    stripInDev: bool,
    stripInBuild: bool,
    includes: Option<seq<string -> bool>>,
    excludes: Option<seq<string -> bool>>,
    processVue: bool)

  /** `removeConsolePlugin(options)`: level `warn`, both phases and `.vue` processing on by default. */
  function RemoveConsolePlugin(o: Options): (p: Plugin)
    ensures o.level.None? && o.methods.None? ==> p.methods == {"trace", "debug", "log", "info"}
    ensures p.processVue == o.processVue.GetOr(true)
    ensures p.stripInDev == o.stripInDev.GetOr(true) && p.stripInBuild == o.stripInBuild.GetOr(true)
  {
    DefaultLevelStrips();
    Plugin(MethodsToStrip(o.level.GetOr(Warn), o.methods), o.stripInDev.GetOr(true), o.stripInBuild.GetOr(true),
           o.includes, o.excludes, o.processVue.GetOr(true))
  }

  /** The `apply` hook: the dev server (`serve`) or a build. */
  function Applies(p: Plugin, serve: bool): (b: bool)
    ensures b <==> (serve && p.stripInDev) || (!serve && p.stripInBuild)
  {
    if serve then p.stripInDev else p.stripInBuild
  }

  /**
   * The `transform` hook: `None` (Vite keeps the file) when the file is not
   * processed or nothing was removed. `sfc` stands for `processVueSFC`,
   * which rewrites the `<script>` blocks of a `.vue` file.
   */
  function Transform(p: Plugin, code: string, id: string, sfc: (string, set<string>) -> string): (r: Option<string>)
    ensures r.Some? ==> ShouldProcess(id, p.includes, p.excludes, p.processVue) && r.value != code
    ensures r.Some? && !EndsWith(id, ".vue") ==> r.value == Strip(code, p.methods)
    ensures ShouldProcess(id, p.includes, p.excludes, p.processVue) && !EndsWith(id, ".vue") ==>
      (r.None? <==> Strip(code, p.methods) == code)
  {
    if !ShouldProcess(id, p.includes, p.excludes, p.processVue) then None
    else
      var transformed := if EndsWith(id, ".vue") && p.processVue then sfc(code, p.methods) else Strip(code, p.methods);
      if transformed == code then None else Some(transformed)
  }

  /** A plugin that strips nothing leaves every script file to Vite. */
  lemma NothingToStripKeepsFiles(p: Plugin, code: string, id: string, sfc: (string, set<string>) -> string)
    requires p.methods == {} && !EndsWith(id, ".vue")
    ensures Transform(p, code, id, sfc).None?
  {
    StripNothing(code);
  }
}
