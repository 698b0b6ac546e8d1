/**
 * The text `bootstrapEnv` writes: a `.env` file per mode (the merged
 * `default` and mode records), one for the `default` record alone, and an
 * optional `.d.ts` declaration of the variables. Locating and loading the
 * config and writing the files are not part of this model; the functions
 * here compute the file contents.
 */
module BootstrapEnv {
  import opened Common
  import opened JsValue
  import opened EnvShared

  // ---- .env lines ----

  /** The right-hand side of a line: an object prints its `value` (or nothing), `null`/`undefined` print nothing. */
  function RawValue(v: Value): (r: string)
    ensures IsNullish(v) ==> r == ""
    ensures v.Obj? ==> r == (if IsNullish(Lookup(v.fields, "value")) then "" else ToJsString(Lookup(v.fields, "value")))
    ensures !IsObjectLike(v) && !IsNullish(v) ==> r == ToJsString(v)
  {
    if IsObjectLike(v) then ToJsString(OrElse(PropertyOf(v, "value"), Str("")))
    else ToJsString(OrElse(v, Str("")))
  }

  /** One `KEY=value` line. */
  function EnvLine(prefixes: seq<string>, k: string, v: Value): string {
    ToEnvKey(prefixes, k) + "=" + RawValue(v)
  }

  /** The lines of a record, one per entry in entry order. */
  function EntryLines(prefixes: seq<string>, obj: Fields): (r: seq<string>)
    ensures |r| == |obj|
  {
    if |obj| == 0 then []
    else EntryLines(prefixes, obj[..|obj| - 1]) + [EnvLine(prefixes, obj[|obj| - 1].0, obj[|obj| - 1].1)]
  }

  /** Line `i` of the text is entry `i`'s line. */
  lemma {:induction false} EntryLinesAt(prefixes: seq<string>, obj: Fields, i: nat)
    requires i < |obj|
    ensures EntryLines(prefixes, obj)[i] == EnvLine(prefixes, obj[i].0, obj[i].1)
    decreases |obj|
  {
    if i < |obj| - 1 {
      EntryLinesAt(prefixes, obj[..|obj| - 1], i);
    }
  }

  /** What `toLines(obj)` returns: the lines joined by newlines, plus a final newline. */
  function LinesText(prefixes: seq<string>, obj: Fields): string {
    Join(EntryLines(prefixes, obj), "\n") + "\n"
  }

  lemma EntryLinesSnoc(prefixes: seq<string>, obj: Fields, i: nat)
    requires i < |obj|
    ensures EntryLines(prefixes, obj[..i + 1]) == EntryLines(prefixes, obj[..i]) + [EnvLine(prefixes, obj[i].0, obj[i].1)]
  {
    assert obj[..i + 1][..i] == obj[..i];
  }

  /** `toLines`: push one line per entry, then join. */
  method ToLines(prefixes: seq<string>, obj: Fields) returns (text: string)
    ensures text == LinesText(prefixes, obj)
  {
    var lines: seq<string> := [];
    for i := 0 to |obj|
      invariant lines == EntryLines(prefixes, obj[..i])
    {
      var key := ToEnvKey(prefixes, obj[i].0);
      var raw := RawValue(obj[i].1);
      EntryLinesSnoc(prefixes, obj, i);
      lines := lines + [key + "=" + raw];
    }
    assert obj[..|obj|] == obj;
    text := Join(lines, "\n") + "\n";
  }

  /** Reading the text back line by line gives exactly the entries' lines, in order. */
  lemma LinesReadBack(prefixes: seq<string>, obj: Fields)
    requires |obj| > 0
    requires forall i :: 0 <= i < |obj| ==> '\n' !in EnvLine(prefixes, obj[i].0, obj[i].1)
    ensures var text := LinesText(prefixes, obj);
      |text| > 0 && text[|text| - 1] == '\n' &&
      Split(text[..|text| - 1], '\n') == EntryLines(prefixes, obj)
  {
    var lines := EntryLines(prefixes, obj);
    var text := LinesText(prefixes, obj);
    forall i | 0 <= i < |lines|
      ensures '\n' !in lines[i]
    {
      EntryLinesAt(prefixes, obj, i);
    }
    assert text[..|text| - 1] == Join(lines, "\n");
    SplitJoin(lines, '\n');
  }

  /** An empty record gives a lone newline. */
  lemma EmptyRecordText(prefixes: seq<string>)
    ensures LinesText(prefixes, []) == "\n"
  {
  }

  // ---- ordering keys ----

  /** Code-unit lexicographic order. */
  predicate LexLe(a: string, b: string) {
    |a| == 0 || (|b| > 0 && (a[0] < b[0] || (a[0] == b[0] && LexLe(a[1..], b[1..]))))
  }

  lemma {:induction false} LexTotal(a: string, b: string)
    ensures LexLe(a, b) || LexLe(b, a)
  {
    if |a| > 0 && |b| > 0 && a[0] == b[0] {
      LexTotal(a[1..], b[1..]);
    }
  }

  predicate Sorted(s: seq<string>) {
    forall i :: 0 <= i < |s| - 1 ==> LexLe(s[i], s[i + 1])
  }

  function Insert(x: string, s: seq<string>): (r: seq<string>)
    requires Sorted(s)
    ensures Sorted(r)
    ensures multiset(r) == multiset(s) + multiset{x}
    ensures |r| == |s| + 1
    ensures |r| > 0 && (r[0] == x || (|s| > 0 && r[0] == s[0]))
  {
    if |s| == 0 then [x]
    else if LexLe(x, s[0]) then [x] + s
    else
      var rest := Insert(x, s[1..]);
      LexTotal(x, s[0]);
      assert s == [s[0]] + s[1..];
      [s[0]] + rest
  }

  /** The keys in order; `localeCompare` is replaced by code-unit order. */
  function SortKeys(ks: seq<string>): (r: seq<string>)
    ensures Sorted(r)
    ensures multiset(r) == multiset(ks)
    ensures |r| == |ks|
  {
    if |ks| == 0 then []
    else
      assert ks == [ks[0]] + ks[1..];
      Insert(ks[0], SortKeys(ks[1..]))
  }

  // ---- the declaration file ----

  /** One `readonly` member line per key. */
  function DtsMembers(prefixes: seq<string>, sorted: seq<string>): (r: seq<string>)
    ensures |r| == |sorted|
    ensures forall i :: 0 <= i < |sorted| ==> r[i] == "  readonly " + ToEnvKey(prefixes, sorted[i]) + ": string"
  {
    seq(|sorted|, i requires 0 <= i < |sorted| => "  readonly " + ToEnvKey(prefixes, sorted[i]) + ": string")
  }

  /** The lines of the `.d.ts` text: the members for the merged keys, sorted, inside `ImportMetaEnv`. */
  function DtsLines(prefixes: seq<string>, merged: Fields): (r: seq<string>)
    ensures |r| == |merged| + 6
    ensures r[0] == "interface ImportMetaEnv {"
    ensures r[1..|merged| + 1] == DtsMembers(prefixes, SortKeys(Keys(merged)))
    ensures r[|merged| + 1..] == ["}", "interface ImportMeta {", "  readonly env: ImportMetaEnv", "}", ""]
  {
    var members := DtsMembers(prefixes, SortKeys(Keys(merged)));
    var r := ["interface ImportMetaEnv {"] + members + ["}", "interface ImportMeta {", "  readonly env: ImportMetaEnv", "}", ""];
    assert r[1..|merged| + 1] == members;
    r
  }

  /** The `.d.ts` text. */
  function DtsText(prefixes: seq<string>, merged: Fields): string {
    Join(DtsLines(prefixes, merged), "\n")
  }

  // ---- bootstrapEnv ----

  /** `opts.mode ?? MODE ?? NODE_ENV ?? 'development'`, the environment read by the caller. */
  function ModeOf(option: Option<string>, envMode: Option<string>, nodeEnv: Option<string>): (m: string)
    ensures option.Some? ==> m == option.value
    ensures option.None? && envMode.Some? ==> m == envMode.value
    ensures option.None? && envMode.None? && nodeEnv.Some? ==> m == nodeEnv.value
    ensures option.None? && envMode.None? && nodeEnv.None? ==> m == "development"
  {
    if option.Some? then option.value
    else if envMode.Some? then envMode.value
    else if nodeEnv.Some? then nodeEnv.value
    else "development"
  }

  /** The three texts `bootstrapEnv` writes (the types file only when asked for). */
  datatype EnvFiles = EnvFiles(modeFile: string, defaultFile: string, types: Option<string>)

  /**
   * `bootstrapEnv` once the config is loaded: the mode file gets the merged
   * record, the default file only `cfg.default`, and the types file is
   * produced unless `disableTypes` is set or no (non-empty) output path is
   * given.
   */
  function Bootstrap(cfg: Fields, mode: string, includePrefixes: Option<seq<string>>, disableTypes: Option<bool>, typesOutput: Option<string>): (r: EnvFiles)
    ensures var prefixes := includePrefixes.GetOr(["VITE_"]);
      r.modeFile == LinesText(prefixes, MergeByMode(cfg, mode)) &&
      r.defaultFile == LinesText(prefixes, Spread([], Own(Lookup(cfg, "default"))))
    ensures r.types.Some? <==> !disableTypes.GetOr(false) && typesOutput.Some? && typesOutput.value != ""
    ensures r.types.Some? ==> r.types.value == DtsText(includePrefixes.GetOr(["VITE_"]), MergeByMode(cfg, mode))
  {
    var prefixes := includePrefixes.GetOr(["VITE_"]);
    var merged := MergeByMode(cfg, mode);
    var baseOnly := Spread([], Own(Lookup(cfg, "default")));
    var types := if !disableTypes.GetOr(false) && typesOutput.Some? && typesOutput.value != "" then Some(DtsText(prefixes, merged)) else None;
    EnvFiles(LinesText(prefixes, merged), LinesText(prefixes, baseOnly), types)
  }
}
