/**
 * `toEnvKey` and `mergeByMode` from the Vite environment helpers: a config
 * key such as `apiBaseUrl` becomes the variable name `VITE_API_BASE_URL`,
 * and the variables of a mode are the `default` record overridden by the
 * mode's own record.
 *
 * `toEnvKey` is a chain of four regular-expression replacements and an
 * upper-casing; each step is a function here, and their composition is
 * shown to yield a name made only of `A`-`Z`, `0`-`9` and single inner
 * underscores, which keeps the key's letters and digits in order.
 */
module EnvShared {
  import opened Common
  import opened JsValue

  /** The characters of `s` other than `_`. */
  function DropUnderscores(s: string): (r: string)
    ensures |r| <= |s|
  {
    if |s| == 0 then "" else (if s[0] == '_' then "" else [s[0]]) + DropUnderscores(s[1..])
  }

  /** The ASCII letters and digits of `s`, in order. */
  function Alnums(s: string): (r: string)
    ensures forall i :: 0 <= i < |r| ==> IsAsciiAlnum(r[i])
  {
    if |s| == 0 then "" else (if IsAsciiAlnum(s[0]) then [s[0]] else "") + Alnums(s[1..])
  }

  lemma {:induction false} AlnumsAppend(a: string, b: string)
    ensures Alnums(a + b) == Alnums(a) + Alnums(b)
    decreases |a|
  {
    if |a| > 0 {
      assert (a + b)[0] == a[0];
      assert (a + b)[1..] == a[1..] + b;
      AlnumsAppend(a[1..], b);
      var x := if IsAsciiAlnum(a[0]) then [a[0]] else "";
      assert Alnums(a + b) == x + (Alnums(a[1..]) + Alnums(b));
      assert x + (Alnums(a[1..]) + Alnums(b)) == (x + Alnums(a[1..])) + Alnums(b);
    } else {
      assert a + b == b;
    }
  }

  /** Two underscores side by side. */
  predicate HasDoubleUnderscore(s: string) {
    exists i :: 0 <= i < |s| - 1 && s[i] == '_' && s[i + 1] == '_'
  }

  // ---- step 1: `/([a-z0-9])([A-Z])/g` -> `$1_$2`, which is `CamelBreak(s, '_')` ----

  lemma FilterCons(c: char, t: string)
    ensures DropUnderscores([c] + t) == (if c == '_' then "" else [c]) + DropUnderscores(t)
    ensures Alnums([c] + t) == (if IsAsciiAlnum(c) then [c] else "") + Alnums(t)
  {
    assert ([c] + t)[1..] == t;
  }

  lemma ConsPair(x: char, y: char, t: string)
    ensures [x, y] + t == [x] + ([y] + t)
  {
  }

  lemma ConsTriple(x: char, y: char, z: char, t: string)
    ensures [x, y, z] + t == [x] + ([y] + ([z] + t))
  {
  }

  /** An `_` inserted between two characters disappears again when underscores are dropped. */
  lemma BreakPairDrop(x: char, y: char, t: string, u: string)
    requires DropUnderscores(t) == DropUnderscores(u)
    ensures DropUnderscores([x, '_', y] + t) == DropUnderscores([x, y] + u)
  {
    var yt, yu := [y] + t, [y] + u;
    ConsTriple(x, '_', y, t);
    ConsPair(x, y, u);
    FilterCons(y, t);
    FilterCons(y, u);
    assert DropUnderscores(yt) == DropUnderscores(yu);
    FilterCons('_', yt);
    FilterCons(x, ['_'] + yt);
    FilterCons(x, yu);
  }

  /** `CamelBreak` adds underscores and nothing else. */
  lemma {:induction false} CamelBreakOnlyInserts(s: string)
    ensures DropUnderscores(CamelBreak(s, '_')) == DropUnderscores(s)
  {
    if |s| >= 2 && (IsAsciiLower(s[0]) || IsAsciiDigit(s[0])) && IsAsciiUpper(s[1]) {
      CamelBreakOnlyInserts(s[2..]);
      assert CamelBreak(s, '_') == [s[0], '_', s[1]] + CamelBreak(s[2..], '_');
      assert s == [s[0], s[1]] + s[2..];
      BreakPairDrop(s[0], s[1], CamelBreak(s[2..], '_'), s[2..]);
    } else if |s| > 0 {
      CamelBreakOnlyInserts(s[1..]);
      assert CamelBreak(s, '_') == [s[0]] + CamelBreak(s[1..], '_');
      FilterCons(s[0], CamelBreak(s[1..], '_'));
      FilterCons(s[0], s[1..]);
      assert s == [s[0]] + s[1..];
    }
  }

  /** An `_` inserted between two characters does not change their letters and digits. */
  lemma BreakPairAlnums(x: char, y: char, t: string, u: string)
    requires Alnums(t) == Alnums(u)
    ensures Alnums([x, '_', y] + t) == Alnums([x, y] + u)
  {
    var yt, yu := [y] + t, [y] + u;
    ConsTriple(x, '_', y, t);
    ConsPair(x, y, u);
    FilterCons(y, t);
    FilterCons(y, u);
    assert Alnums(yt) == Alnums(yu);
    FilterCons('_', yt);
    FilterCons(x, ['_'] + yt);
    FilterCons(x, yu);
  }

  /** The letters and digits survive `CamelBreak` in order. */
  lemma {:induction false} CamelBreakKeepsAlnums(s: string)
    ensures Alnums(CamelBreak(s, '_')) == Alnums(s)
  {
    if |s| >= 2 && (IsAsciiLower(s[0]) || IsAsciiDigit(s[0])) && IsAsciiUpper(s[1]) {
      CamelBreakKeepsAlnums(s[2..]);
      assert CamelBreak(s, '_') == [s[0], '_', s[1]] + CamelBreak(s[2..], '_');
      assert s == [s[0], s[1]] + s[2..];
      BreakPairAlnums(s[0], s[1], CamelBreak(s[2..], '_'), s[2..]);
    } else if |s| > 0 {
      CamelBreakKeepsAlnums(s[1..]);
      assert CamelBreak(s, '_') == [s[0]] + CamelBreak(s[1..], '_');
      FilterCons(s[0], CamelBreak(s[1..], '_'));
      FilterCons(s[0], s[1..]);
      assert s == [s[0]] + s[1..];
    }
  }

  // ---- step 2: `/[^a-z0-9]+/gi` -> `_` ----

  /** `s` without its leading characters that are not ASCII letters or digits. */
  function SkipNonAlnum(s: string): (r: string)
    ensures |r| <= |s| && r == s[|s| - |r|..]
    ensures |r| > 0 ==> IsAsciiAlnum(r[0])
  {
    if |s| > 0 && !IsAsciiAlnum(s[0]) then SkipNonAlnum(s[1..]) else s
  }

  /** Each run of characters other than ASCII letters and digits becomes one `_`. */
  function CollapseRuns(s: string): (r: string)
    ensures forall i :: 0 <= i < |r| ==> IsAsciiAlnum(r[i]) || r[i] == '_'
    ensures |s| > 0 && IsAsciiAlnum(s[0]) ==> |r| > 0 && r[0] == s[0]
    ensures !HasDoubleUnderscore(r)
    decreases |s|
  {
    if |s| == 0 then ""
    else if IsAsciiAlnum(s[0]) then
      var rest := CollapseRuns(s[1..]);
      assert forall i :: 1 <= i < |rest| + 1 - 1 ==> ([s[0]] + rest)[i] == rest[i - 1];
      [s[0]] + rest
    else
      var rest := CollapseRuns(SkipNonAlnum(s));
      assert forall i :: 1 <= i < |rest| + 1 - 1 ==> ("_" + rest)[i] == rest[i - 1];
      "_" + rest
  }

  lemma {:induction false} SkipNonAlnumKeepsAlnums(s: string)
    ensures Alnums(SkipNonAlnum(s)) == Alnums(s)
  {
    if |s| > 0 && !IsAsciiAlnum(s[0]) {
      SkipNonAlnumKeepsAlnums(s[1..]);
    }
  }

  /** `CollapseRuns` keeps every letter and digit, in order. */
  lemma {:induction false} CollapseRunsKeepsAlnums(s: string)
    ensures Alnums(CollapseRuns(s)) == Alnums(s)
    decreases |s|
  {
    if |s| > 0 {
      if IsAsciiAlnum(s[0]) {
        CollapseRunsKeepsAlnums(s[1..]);
        assert ([s[0]] + CollapseRuns(s[1..]))[1..] == CollapseRuns(s[1..]);
      } else {
        CollapseRunsKeepsAlnums(SkipNonAlnum(s));
        SkipNonAlnumKeepsAlnums(s);
        assert ("_" + CollapseRuns(SkipNonAlnum(s)))[1..] == CollapseRuns(SkipNonAlnum(s));
      }
    }
  }

  // ---- step 3: `/_+/g` -> `_` ----

  function SkipUnderscores(s: string): (r: string)
    ensures |r| <= |s| && r == s[|s| - |r|..]
    ensures |r| > 0 ==> r[0] != '_'
  {
    if |s| > 0 && s[0] == '_' then SkipUnderscores(s[1..]) else s
  }

  /** Each run of underscores becomes one. */
  function SquashUnderscores(s: string): string
    decreases |s|
  {
    if |s| == 0 then ""
    else if s[0] == '_' then "_" + SquashUnderscores(SkipUnderscores(s))
    else [s[0]] + SquashUnderscores(s[1..])
  }

  /** After step 2 there is nothing left for step 3 to do. */
  lemma NoDoubleTail(s: string)
    requires |s| > 0 && !HasDoubleUnderscore(s)
    ensures !HasDoubleUnderscore(s[1..])
  {
    forall i | 0 <= i < |s[1..]| - 1
      ensures !(s[1..][i] == '_' && s[1..][i + 1] == '_')
    {
      assert s[1..][i] == s[i + 1] && s[1..][i + 1] == s[i + 2];
    }
  }

  lemma SkipSingleUnderscore(s: string)
    requires |s| > 0 && s[0] == '_' && !HasDoubleUnderscore(s)
    ensures SkipUnderscores(s) == s[1..]
  {
    if |s| > 1 {
      assert s[1] != '_';
      assert s[1..][0] != '_';
    }
  }

  lemma {:induction false} SquashWithoutDoubles(s: string)
    requires !HasDoubleUnderscore(s)
    ensures SquashUnderscores(s) == s
    decreases |s|
  {
    if |s| > 0 {
      NoDoubleTail(s);
      SquashWithoutDoubles(s[1..]);
      if s[0] == '_' {
        SkipSingleUnderscore(s);
      }
      assert [s[0]] + s[1..] == s;
    }
  }


  // ---- step 4: `/^_+|_+$/g` -> `` ----

  function TrimStartUnderscores(s: string): (r: string)
    ensures |r| <= |s| && r == s[|s| - |r|..]
    ensures |r| > 0 ==> r[0] != '_'
    ensures forall i :: 0 <= i < |s| - |r| ==> s[i] == '_'
  {
    if |s| > 0 && s[0] == '_' then TrimStartUnderscores(s[1..]) else s
  }

  function TrimEndUnderscores(s: string): (r: string)
    ensures |r| <= |s| && r == s[..|r|]
    ensures |r| > 0 ==> r[|r| - 1] != '_'
    ensures forall i :: |r| <= i < |s| ==> s[i] == '_'
  {
    if |s| > 0 && s[|s| - 1] == '_' then TrimEndUnderscores(s[..|s| - 1]) else s
  }

  /** How many underscores `s` starts with. */
  function LeadingUnderscores(s: string): (n: nat)
    ensures n <= |s|
  {
    |s| - |TrimStartUnderscores(s)|
  }

  /** Leading and trailing underscores removed. */
  function TrimUnderscores(s: string): (r: string)
    ensures |r| > 0 ==> r[0] != '_' && r[|r| - 1] != '_'
    ensures LeadingUnderscores(s) + |r| <= |s| && r == s[LeadingUnderscores(s)..LeadingUnderscores(s) + |r|]
  {
    TrimEndUnderscores(TrimStartUnderscores(s))
  }

  lemma {:induction false} AlnumsOfUnderscores(s: string)
    requires forall i :: 0 <= i < |s| ==> s[i] == '_'
    ensures Alnums(s) == ""
  {
    if |s| > 0 {
      AlnumsOfUnderscores(s[1..]);
    }
  }

  lemma TrimStartKeepsAlnums(s: string)
    ensures Alnums(TrimStartUnderscores(s)) == Alnums(s)
  {
    var t := TrimStartUnderscores(s);
    var p := s[..|s| - |t|];
    assert s == p + t;
    AlnumsAppend(p, t);
    AlnumsOfUnderscores(p);
  }

  lemma TrimEndKeepsAlnums(t: string)
    ensures Alnums(TrimEndUnderscores(t)) == Alnums(t)
  {
    var r := TrimEndUnderscores(t);
    var q := t[|r|..];
    assert t == r + q;
    AlnumsAppend(r, q);
    AlnumsOfUnderscores(q);
  }

  /** Trimming removes only underscores. */
  lemma TrimKeepsAlnums(s: string)
    ensures Alnums(TrimUnderscores(s)) == Alnums(s)
  {
    TrimStartKeepsAlnums(s);
    TrimEndKeepsAlnums(TrimStartUnderscores(s));
  }

  // ---- the whole chain ----

  /** The shape `CollapseRuns` leaves, which trimming keeps. */
  predicate EnvKeyShape(t: string) {
    (forall i :: 0 <= i < |t| ==> IsAsciiAlnum(t[i]) || t[i] == '_') && !HasDoubleUnderscore(t)
  }

  lemma TrimKeepsShape(s: string)
    requires EnvKeyShape(s)
    ensures EnvKeyShape(TrimUnderscores(s))
  {
    var t := TrimUnderscores(s);
    var a := LeadingUnderscores(s);
    forall i | 0 <= i < |t|
      ensures t[i] == s[a + i]
    {
    }
    forall i | 0 <= i < |t| - 1
      ensures !(t[i] == '_' && t[i + 1] == '_')
    {
      assert t[i] == s[a + i] && t[i + 1] == s[a + i + 1];
    }
  }


  lemma UpperKeepsShape(t: string)
    requires EnvKeyShape(t) && (|t| > 0 ==> t[0] != '_' && t[|t| - 1] != '_')
    ensures var r := Upper(t);
      (forall i :: 0 <= i < |r| ==> IsAsciiUpper(r[i]) || IsAsciiDigit(r[i]) || r[i] == '_') &&
      (|r| > 0 ==> r[0] != '_' && r[|r| - 1] != '_') &&
      !HasDoubleUnderscore(r)
  {
    var r := Upper(t);
    assert forall i :: 0 <= i < |r| ==> (r[i] == '_' <==> t[i] == '_');
  }

  /** The part of the variable name that `toEnvKey` derives from the key. */
  function NormalizeKey(key: string): (r: string)
    ensures forall i :: 0 <= i < |r| ==> IsAsciiUpper(r[i]) || IsAsciiDigit(r[i]) || r[i] == '_'
    ensures |r| > 0 ==> r[0] != '_' && r[|r| - 1] != '_'
    ensures !HasDoubleUnderscore(r)
  {
    var collapsed := CollapseRuns(CamelBreak(key, '_'));
    SquashWithoutDoubles(collapsed);
    var trimmed := TrimUnderscores(SquashUnderscores(collapsed));
    TrimKeepsShape(collapsed);
    UpperKeepsShape(trimmed);
    Upper(trimmed)
  }

  lemma {:induction false} AlnumsUpper(s: string)
    ensures Alnums(Upper(s)) == Upper(Alnums(s))
  {
    if |s| > 0 {
      AlnumsUpper(s[1..]);
      assert Upper(s)[1..] == Upper(s[1..]);
      assert IsAsciiAlnum(Upper(s)[0]) <==> IsAsciiAlnum(s[0]);
      if IsAsciiAlnum(s[0]) {
        assert Upper([s[0]] + Alnums(s[1..])) == [ToUpperChar(s[0])] + Upper(Alnums(s[1..]));
      }
    }
  }

  /** The name keeps exactly the key's ASCII letters and digits, in order, upper-cased. */
  lemma NormalizeKeepsAlnums(key: string)
    ensures Alnums(NormalizeKey(key)) == Upper(Alnums(key))
  {
    var collapsed := CollapseRuns(CamelBreak(key, '_'));
    SquashWithoutDoubles(collapsed);
    CamelBreakKeepsAlnums(key);
    CollapseRunsKeepsAlnums(CamelBreak(key, '_'));
    TrimKeepsAlnums(collapsed);
    AlnumsUpper(TrimUnderscores(collapsed));
  }

  /** `toEnvKey(prefixes, key)`: the first prefix (`VITE_` when there is none), then the normalised key. */
  function ToEnvKey(prefixes: seq<string>, key: string): (r: string)
    ensures |prefixes| > 0 ==> r == prefixes[0] + NormalizeKey(key)
    ensures |prefixes| == 0 ==> r == "VITE_" + NormalizeKey(key)
  {
    (if |prefixes| > 0 then prefixes[0] else "VITE_") + NormalizeKey(key)
  }

  // ---- mergeByMode ----

  /** The own properties `{ ...v }` copies; only plain objects are modelled. */
  function Own(v: Value): (r: Fields)
    ensures v.Obj? ==> r == v.fields
  {
    if v.Obj? then v.fields else []
  }

  /** `mergeByMode(cfg, mode)`: `{ ...cfg.default, ...cfg[mode] }`. */
  function MergeByMode(cfg: Fields, mode: string): (r: Fields)
    ensures UniqueKeys(r)
  {
    SpreadKeepsUnique([], Own(Lookup(cfg, "default")));
    SpreadKeepsUnique(Spread([], Own(Lookup(cfg, "default"))), Own(Lookup(cfg, mode)));
    Spread(Spread([], Own(Lookup(cfg, "default"))), Own(Lookup(cfg, mode)))
  }

  /** A mode value wins over the default one; every key of either record is present. */
  lemma MergeByModeLookup(cfg: Fields, mode: string, k: string)
    requires UniqueKeys(Own(Lookup(cfg, "default"))) && UniqueKeys(Own(Lookup(cfg, mode)))
    ensures var base := Own(Lookup(cfg, "default"));
      var specific := Own(Lookup(cfg, mode));
      Lookup(MergeByMode(cfg, mode), k) == (if HasKey(specific, k) then Lookup(specific, k) else Lookup(base, k)) &&
      (HasKey(MergeByMode(cfg, mode), k) <==> HasKey(base, k) || HasKey(specific, k))
  {
    var base := Own(Lookup(cfg, "default"));
    var specific := Own(Lookup(cfg, mode));
    LookupSpread(Spread([], base), specific, k);
    LookupSpread([], base, k);
  }

  /** Without a record for the mode, the result is a copy of `default`. */
  lemma MergeWithoutMode(cfg: Fields, mode: string, k: string)
    requires !HasKey(cfg, mode) && UniqueKeys(Own(Lookup(cfg, "default")))
    ensures Lookup(MergeByMode(cfg, mode), k) == Lookup(Own(Lookup(cfg, "default")), k)
    ensures HasKey(MergeByMode(cfg, mode), k) <==> HasKey(Own(Lookup(cfg, "default")), k)
  {
    MergeByModeLookup(cfg, mode, k);
  }
}
