/**
 * The object helpers of the utility package: `isEmpty`, `deepMerge`,
 * `pick`, `omit`, and reading and writing along a dotted path (`get`,
 * `set`). Objects are the ordered property lists of `JsValue`; a plain
 * object is an `Obj` (dates, arrays and form bodies are not plain).
 */
module ObjectUtils {
  import opened Common
  import opened JsValue

  // ---- isEmpty ----

  /** `isEmpty(value)`. */
  function IsEmpty(v: Value): bool {
    match v
    case Undefined => true
    case Null => true
    case Str(s) => |Trim(s)| == 0
    case Arr(items) => |items| == 0
    case Obj(fs) => |Keys(fs)| == 0
    case _ => false
  }

  /** Nullish values, blank strings, and arrays and objects without entries are empty; nothing else is. */
  lemma IsEmptyCases(v: Value)
    ensures IsNullish(v) ==> IsEmpty(v)
    ensures v.Str? ==> (IsEmpty(v) <==> AllWhitespace(v.s))
    ensures v.Arr? ==> (IsEmpty(v) <==> |v.items| == 0)
    ensures v.Obj? ==> (IsEmpty(v) <==> |v.fields| == 0)
    ensures v.Bool? || v.Num? || v.Date? || v.Form? ==> !IsEmpty(v)
  {
    if v.Str? {
      TrimEmptyIff(v.s);
    }
  }

  // ---- nesting depth, the measure of deepMerge ----

  /** How deeply arrays and objects nest; a form body counts as an array of pairs. */
  function Depth(v: Value): nat
    decreases v, 1
  {
    match v
    case Arr(items) => 1 + ItemsDepth(items)
    case Obj(fs) => 1 + FieldsDepth(fs)
    case Form(_) => 2
    case _ => 0
  }

  function ItemsDepth(items: seq<Value>): (d: nat)
    ensures forall i :: 0 <= i < |items| ==> Depth(items[i]) <= d
    decreases items, 0
  {
    if |items| == 0 then 0 else Max(Depth(items[0]), ItemsDepth(items[1..]))
  }

  function FieldsDepth(fs: Fields): (d: nat)
    decreases fs, 0
  {
    if |fs| == 0 then 0
    else
      var (k, x) := fs[0];
      assert fs[0] in fs && x < fs[0];
      Max(Depth(x), FieldsDepth(fs[1..]))
  }

  lemma {:induction false} FieldsDepthBounds(fs: Fields)
    ensures forall i :: 0 <= i < |fs| ==> Depth(fs[i].1) <= FieldsDepth(fs)
  {
    if |fs| > 0 {
      FieldsDepthBounds(fs[1..]);
      assert forall i :: 1 <= i < |fs| ==> fs[i] == fs[1..][i - 1];
    }
  }

  lemma {:induction false} FieldsDepthBound(fs: Fields, d: nat)
    requires forall i :: 0 <= i < |fs| ==> Depth(fs[i].1) <= d
    ensures FieldsDepth(fs) <= d
  {
    if |fs| > 0 {
      assert forall i :: 0 <= i < |fs| - 1 ==> fs[1..][i] == fs[i + 1];
      FieldsDepthBound(fs[1..], d);
    }
  }

  lemma {:induction false} ItemsDepthBound(items: seq<Value>, d: nat)
    requires forall i :: 0 <= i < |items| ==> Depth(items[i]) <= d
    ensures ItemsDepth(items) <= d
  {
    if |items| > 0 {
      assert forall i :: 0 <= i < |items| - 1 ==> items[1..][i] == items[i + 1];
      ItemsDepthBound(items[1..], d);
    }
  }

  lemma ItemsDepthAppend(a: seq<Value>, b: seq<Value>)
    ensures ItemsDepth(a + b) <= Max(ItemsDepth(a), ItemsDepth(b))
  {
    forall i | 0 <= i < |a + b|
      ensures Depth((a + b)[i]) <= Max(ItemsDepth(a), ItemsDepth(b))
    {
      if i < |a| {
        assert (a + b)[i] == a[i];
      } else {
        assert (a + b)[i] == b[i - |a|];
      }
    }
    ItemsDepthBound(a + b, Max(ItemsDepth(a), ItemsDepth(b)));
  }

  lemma DepthLookup(fs: Fields, k: string)
    ensures Depth(Lookup(fs, k)) <= FieldsDepth(fs)
  {
    FieldsDepthBounds(fs);
  }

  lemma {:induction false} FieldsDepthPut(fs: Fields, k: string, x: Value)
    ensures FieldsDepth(Put(fs, k, x)) <= Max(FieldsDepth(fs), Depth(x))
  {
    var r := Put(fs, k, x);
    if |fs| > 0 && fs[0].0 != k {
      FieldsDepthPut(fs[1..], k, x);
      assert r[1..] == Put(fs[1..], k, x);
    } else if |fs| > 0 {
      assert r[1..] == fs[1..];
    }
  }

  // ---- deepMerge ----

  /** `Object.keys(src || {})` with `src[key]`: the own enumerable properties of a source, in order. */
  function AsSource(v: Value): (fs: Fields)
    ensures v.Obj? ==> fs == v.fields
    ensures v.Arr? ==> |fs| == |v.items| && forall i :: 0 <= i < |fs| ==> fs[i] == (NatToString(i), v.items[i])
    ensures v.Str? ==> |fs| == |v.s| && forall i :: 0 <= i < |fs| ==> fs[i] == (NatToString(i), Str([v.s[i]]))
    ensures !(v.Obj? || v.Arr? || v.Str?) ==> fs == []
  {
    match v
    case Obj(fs) => fs
    case Arr(items) => seq(|items|, i requires 0 <= i < |items| => (NatToString(i), items[i]))
    case Str(s) => seq(|s|, i requires 0 <= i < |s| => (NatToString(i), Str([s[i]])))
    case _ => []
  }

  lemma AsSourceDepth(v: Value)
    ensures FieldsDepth(AsSource(v)) <= if Depth(v) == 0 then 0 else Depth(v) - 1
  {
    match v
    case Arr(items) => FieldsDepthBound(AsSource(v), ItemsDepth(items));
    case Str(s) => FieldsDepthBound(AsSource(v), 0);
    case _ =>
  }

  /** `[...x]`: the items an iterable spreads into; `None` is the `TypeError` thrown for a value that is not iterable. */
  function SpreadItems(x: Value): (r: Option<seq<Value>>)
    ensures x.Arr? ==> r == Some(x.items)
    ensures x.Obj? || x.Num? || x.Bool? || x.Date? || IsNullish(x) ==> r == None
  {
    match x
    case Arr(items) => Some(items)
    case Str(s) => Some(seq(|s|, i requires 0 <= i < |s| => Str([s[i]])))
    case Form(pairs) => Some(seq(|pairs|, i requires 0 <= i < |pairs| => Arr([Str(pairs[i].0), Str(pairs[i].1)])))
    case _ => None
  }

  lemma SpreadDepth(x: Value)
    requires SpreadItems(x).Some?
    ensures 1 + ItemsDepth(SpreadItems(x).value) <= Max(Depth(x), 1)
  {
    var items := SpreadItems(x).value;
    match x
    case Str(s) => ItemsDepthBound(items, 0);
    case Form(pairs) =>
      forall i | 0 <= i < |items|
        ensures Depth(items[i]) <= 1
      {
        var a := [Str(pairs[i].0), Str(pairs[i].1)];
        assert items[i] == Arr(a);
        ItemsDepthBound(a, 0);
      }
      ItemsDepthBound(items, 1);
    case _ =>
  }

  /**
   * The value `deepMerge` stores under a key that held `prev` (`undefined`
   * when absent) when a source brings `v`: a plain object is merged into a
   * copy of `prev || {}`, an array is appended to the items of `prev || []`,
   * and anything else replaces what was there. `None` is a `TypeError`.
   */
  function MergeValue(prev: Value, v: Value): (r: Option<Value>)
    ensures !v.Obj? && !v.Arr? ==> r == Some(v)
    ensures v.Arr? && prev.Arr? ==> r == Some(Arr(prev.items + v.items))
    ensures v.Arr? && !Truthy(prev) ==> r == Some(v)
    ensures v.Arr? && Truthy(prev) && (prev.Obj? || prev.Num? || prev.Bool? || prev.Date?) ==> r == None
    ensures v.Obj? && r.Some? ==> r.value.Obj?
    ensures r.Some? ==> Depth(r.value) <= Max(Depth(prev), Depth(v))
    decreases Max(Depth(prev), Depth(v)), 0
  {
    if v.Obj? then
      var base := if Truthy(prev) then prev else Obj([]);
      AsSourceDepth(base);
      match MergeFields([], AsSource(base))
      case None => None
      case Some(copy) =>
        match MergeFields(copy, v.fields)
        case None => None
        case Some(m) => Some(Obj(m))
    else if v.Arr? then
      var base := if Truthy(prev) then prev else Arr([]);
      match SpreadItems(base)
      case None => None
      case Some(items) =>
        SpreadDepth(base);
        ItemsDepthAppend(items, v.items);
        assert [] + v.items == v.items;
        Some(Arr(items + v.items))
    else Some(v)
  }

  /** The properties of one source merged, in order, into the result built so far. */
  function MergeFields(acc: Fields, src: Fields): (r: Option<Fields>)
    ensures r.Some? ==> FieldsDepth(r.value) <= Max(FieldsDepth(acc), FieldsDepth(src))
    decreases Max(FieldsDepth(acc), FieldsDepth(src)), |src|
  {
    if |src| == 0 then Some(acc)
    else
      var (k, v) := src[0];
      DepthLookup(acc, k);
      FieldsDepthBounds(src);
      match MergeValue(Lookup(acc, k), v)
      case None => None
      case Some(x) =>
        FieldsDepthPut(acc, k, x);
        MergeFields(Put(acc, k, x), src[1..])
  }

  /** `deepMerge(...sources)`, source by source from an empty result. */
  function DeepMergeOf(sources: seq<Value>): Option<Fields> {
    if |sources| == 0 then Some([])
    else
      match DeepMergeOf(sources[..|sources| - 1])
      case None => None
      case Some(acc) => MergeFields(acc, AsSource(sources[|sources| - 1]))
  }

  /** Once a source has thrown, so has the whole merge. */
  lemma {:induction false} DeepMergeThrown(sources: seq<Value>, n: nat)
    requires n <= |sources| && DeepMergeOf(sources[..n]) == None
    ensures DeepMergeOf(sources) == None
    decreases |sources| - n
  {
    if n == |sources| {
      assert sources[..n] == sources;
    } else {
      assert sources[..n + 1][..n] == sources[..n];
      DeepMergeThrown(sources, n + 1);
    }
  }

  /**
   * `deepMerge(...sources)`: for each source in turn, each own property is
   * merged into the result; a `TypeError` on the way is `None`.
   */
  method DeepMerge(sources: seq<Value>) returns (r: Option<Fields>)
    ensures r == DeepMergeOf(sources)
  {
    var result: Fields := [];
    for i := 0 to |sources|
      invariant DeepMergeOf(sources[..i]) == Some(result)
    {
      var src := AsSource(sources[i]);
      ghost var start := result;
      assert sources[..i + 1][..i] == sources[..i];
      for j := 0 to |src|
        invariant MergeFields(start, src) == MergeFields(result, src[j..])
      {
        assert src[j..][0] == src[j] && src[j..][1..] == src[j + 1..];
        var x := MergeValue(Lookup(result, src[j].0), src[j].1);
        if x.None? {
          DeepMergeThrown(sources, i + 1);
          return None;
        }
        result := Put(result, src[j].0, x.value);
      }
    }
    assert sources[..|sources|] == sources;
    return Some(result);
  }

  /** The result holds exactly the keys it held before and those of the source. */
  lemma {:induction false} MergeFieldsKeys(acc: Fields, src: Fields, k: string)
    requires MergeFields(acc, src).Some?
    ensures HasKey(MergeFields(acc, src).value, k) <==> HasKey(acc, k) || HasKey(src, k)
    decreases |src|
  {
    if |src| > 0 {
      var x := MergeValue(Lookup(acc, src[0].0), src[0].1).value;
      MergeFieldsKeys(Put(acc, src[0].0, x), src[1..], k);
      HasKeyPut(acc, src[0].0, x, k);
      HasKeyCons(src, k);
    }
  }

  /** A key the source does not have keeps its value. */
  lemma {:induction false} MergeFieldsUntouched(acc: Fields, src: Fields, k: string)
    requires MergeFields(acc, src).Some? && !HasKey(src, k)
    ensures Lookup(MergeFields(acc, src).value, k) == Lookup(acc, k)
    decreases |src|
  {
    if |src| > 0 {
      var x := MergeValue(Lookup(acc, src[0].0), src[0].1).value;
      HasKeyCons(src, k);
      MergeFieldsUntouched(Put(acc, src[0].0, x), src[1..], k);
      LookupPut(acc, src[0].0, x, k);
    }
  }

  /** A key of the source ends up holding the merge of its earlier value with the source's. */
  lemma {:induction false} MergeFieldsAt(acc: Fields, src: Fields, k: string)
    requires MergeFields(acc, src).Some? && UniqueKeys(src) && HasKey(src, k)
    ensures MergeValue(Lookup(acc, k), Lookup(src, k)).Some?
    ensures Lookup(MergeFields(acc, src).value, k) == MergeValue(Lookup(acc, k), Lookup(src, k)).value
    decreases |src|
  {
    var x := MergeValue(Lookup(acc, src[0].0), src[0].1).value;
    var acc' := Put(acc, src[0].0, x);
    LookupPut(acc, src[0].0, x, k);
    HasKeyCons(src, k);
    assert UniqueKeys(src[1..]) by {
      forall i, j | 0 <= i < j < |src[1..]|
        ensures src[1..][i].0 != src[1..][j].0
      {
        assert src[1..][i] == src[i + 1] && src[1..][j] == src[j + 1];
      }
    }
    if src[0].0 == k {
      assert !HasKey(src[1..], k) by {
        forall i | 0 <= i < |src[1..]|
          ensures src[1..][i].0 != k
        {
          assert src[1..][i] == src[i + 1];
        }
      }
      MergeFieldsUntouched(acc', src[1..], k);
    } else {
      MergeFieldsAt(acc', src[1..], k);
      assert Lookup(src, k) == Lookup(src[1..], k);
    }
  }

  /** A later scalar replaces whatever the key held. */
  lemma MergeScalarWins(acc: Fields, src: Fields, k: string)
    requires MergeFields(acc, src).Some? && UniqueKeys(src) && HasKey(src, k)
    requires !Lookup(src, k).Obj? && !Lookup(src, k).Arr?
    ensures Lookup(MergeFields(acc, src).value, k) == Lookup(src, k)
  {
    MergeFieldsAt(acc, src, k);
  }

  /** A later array is appended to the array the key held. */
  lemma MergeArraysConcatenate(acc: Fields, src: Fields, k: string, a: seq<Value>, b: seq<Value>)
    requires MergeFields(acc, src).Some? && UniqueKeys(src)
    requires Lookup(acc, k) == Arr(a) && Lookup(src, k) == Arr(b)
    ensures Lookup(MergeFields(acc, src).value, k) == Arr(a + b)
  {
    assert HasKey(src, k);
    MergeFieldsAt(acc, src, k);
  }

  /** A later plain object is merged into the object the key held: its keys are those of both. */
  lemma MergeObjectsRecursively(acc: Fields, src: Fields, k: string, f: Fields, g: Fields, k': string)
    requires MergeFields(acc, src).Some? && UniqueKeys(src)
    requires Lookup(acc, k) == Obj(g) && Lookup(src, k) == Obj(f)
    ensures Lookup(MergeFields(acc, src).value, k).Obj?
    ensures HasKey(Lookup(MergeFields(acc, src).value, k).fields, k') <==> HasKey(g, k') || HasKey(f, k')
  {
    assert HasKey(src, k);
    MergeFieldsAt(acc, src, k);
    var copy := MergeFields([], g).value;
    MergeFieldsKeys([], g, k');
    MergeFieldsKeys(copy, f, k');
  }

  /** Appending an array to a key holding a truthy value that is not iterable throws. */
  lemma MergeArrayOntoObjectThrows(acc: Fields, src: Fields, k: string)
    requires UniqueKeys(src) && Lookup(src, k).Arr?
    requires Lookup(acc, k).Obj? || Lookup(acc, k).Date? || (Lookup(acc, k).Num? && Lookup(acc, k).n != 0)
    ensures MergeFields(acc, src) == None
  {
    assert HasKey(src, k);
    if MergeFields(acc, src).Some? {
      MergeFieldsAt(acc, src, k);
    }
  }

  // ---- pick / omit ----

  /** `pick(obj, keys)`: a new object with the listed keys the object has (`k in obj`), in the order they are listed. */
  method Pick(obj: Fields, keys: seq<string>) returns (out: Fields)
    ensures forall k :: HasKey(out, k) <==> HasKey(obj, k) && k in keys
    ensures forall k :: HasKey(out, k) ==> Lookup(out, k) == Lookup(obj, k)
    ensures UniqueKeys(out)
  {
    out := [];
    for i := 0 to |keys|
      invariant forall k :: HasKey(out, k) <==> HasKey(obj, k) && k in keys[..i]
      invariant forall k :: HasKey(out, k) ==> Lookup(out, k) == Lookup(obj, k)
      invariant UniqueKeys(out)
    {
      var k := keys[i];
      assert keys[..i + 1] == keys[..i] + [k];
      if HasKey(obj, k) {
        var v := Lookup(obj, k);
        forall k' | true
          ensures HasKey(Put(out, k, v), k') <==> k' == k || HasKey(out, k')
          ensures Lookup(Put(out, k, v), k') == if k' == k then v else Lookup(out, k')
        {
          HasKeyPut(out, k, v, k');
          LookupPut(out, k, v, k');
        }
        PutKeepsUnique(out, k, v);
        out := Put(out, k, v);
      }
    }
    assert keys[..|keys|] == keys;
  }

  /** `omit(obj, keys)`: a copy without the listed keys; every other property is kept, in its order. */
  method Omit(obj: Fields, keys: seq<string>) returns (out: Fields)
    ensures forall k :: HasKey(out, k) <==> HasKey(obj, k) && k !in keys
    ensures forall k :: k !in keys ==> Lookup(out, k) == Lookup(obj, k)
    ensures forall i :: 0 <= i < |out| ==> out[i] in obj
  {
    out := obj;
    for i := 0 to |keys|
      invariant forall k :: HasKey(out, k) <==> HasKey(obj, k) && k !in keys[..i]
      invariant forall k :: k !in keys[..i] ==> Lookup(out, k) == Lookup(obj, k)
      invariant forall j :: 0 <= j < |out| ==> out[j] in obj
    {
      var k := keys[i];
      assert keys[..i + 1] == keys[..i] + [k];
      forall k' | true
        ensures HasKey(Remove(out, k), k') <==> k' != k && HasKey(out, k')
        ensures Lookup(Remove(out, k), k') == if k' == k then Undefined else Lookup(out, k')
      {
        HasKeyRemove(out, k, k');
        LookupRemove(out, k, k');
      }
      out := Remove(out, k);
    }
    assert keys[..|keys|] == keys;
  }

  // ---- paths ----

  /** The number of ASCII digits at the start of `s`. */
  function DigitPrefix(s: string): (n: nat)
    ensures n <= |s|
  {
    if |s| > 0 && IsAsciiDigit(s[0]) then 1 + DigitPrefix(s[1..]) else 0
  }

  lemma {:induction false} DigitPrefixSpan(s: string)
    ensures forall i :: 0 <= i < DigitPrefix(s) ==> IsAsciiDigit(s[i])
    ensures DigitPrefix(s) < |s| ==> !IsAsciiDigit(s[DigitPrefix(s)])
  {
    if |s| > 0 && IsAsciiDigit(s[0]) {
      DigitPrefixSpan(s[1..]);
    }
  }

  /** The length of a `[digits]` at the start of `s`, or 0 when there is none. */
  function IndexAt(s: string): (m: nat)
    ensures m == 0 || 3 <= m <= |s|
  {
    if |s| > 0 && s[0] == '[' then
      var n := DigitPrefix(s[1..]);
      if n > 0 && 1 + n < |s| && s[1 + n] == ']' then n + 2 else 0
    else 0
  }

  /** What `IndexAt` finds is a bracket, one or more digits and a closing bracket. */
  lemma IndexAtShape(s: string)
    requires IndexAt(s) > 0
    ensures s[0] == '[' && s[IndexAt(s) - 1] == ']' && AllDigits(s[1..IndexAt(s) - 1])
  {
    DigitPrefixSpan(s[1..]);
  }

  /** How far one step of the index rewrite advances: past a whole `[digits]`, or one character. */
  function Advance(s: string): (n: nat)
    requires |s| > 0
    ensures 1 <= n <= |s|
  {
    if IndexAt(s) > 0 then IndexAt(s) else 1
  }

  /** What one step of the index rewrite emits: `.digits` for a `[digits]`, else the character itself. */
  function Piece(s: string): string
    requires |s| > 0
  {
    if IndexAt(s) > 0 then "." + s[1..IndexAt(s) - 1] else [s[0]]
  }

  /** `path.replace(/\[(\d+)\]/g, '.$1')`, scanning from the left. */
  function ReplaceIndexes(s: string): string
    decreases |s|
  {
    if |s| == 0 then "" else Piece(s) + ReplaceIndexes(s[Advance(s)..])
  }

  /** `.filter(Boolean)` on the pieces. */
  function NonEmpty(parts: seq<string>): (r: seq<string>)
    ensures forall i :: 0 <= i < |r| ==> r[i] != "" && r[i] in parts
  {
    if |parts| == 0 then []
    else if parts[0] == "" then NonEmpty(parts[1..])
    else [parts[0]] + NonEmpty(parts[1..])
  }

  /** The tokens of a path: indexes rewritten as dotted keys, split on `.`, empty pieces dropped. */
  function Tokens(path: string): (ts: seq<string>)
    ensures forall i :: 0 <= i < |ts| ==> ts[i] != "" && '.' !in ts[i]
  {
    NonEmpty(Split(ReplaceIndexes(path), '.'))
  }

  lemma {:induction false} DigitPrefixAppend(x: string, z: string)
    requires z == "" || !IsAsciiDigit(z[0])
    ensures DigitPrefix(x + z) == DigitPrefix(x)
  {
    if |x| > 0 {
      assert (x + z)[1..] == x[1..] + z;
      DigitPrefixAppend(x[1..], z);
    } else {
      assert x + z == z;
    }
  }

  lemma IndexAtAppend(x: string, z: string)
    requires |x| > 0
    requires z == "" || (!IsAsciiDigit(z[0]) && z[0] != ']')
    ensures IndexAt(x + z) == IndexAt(x)
  {
    if x[0] == '[' {
      assert (x + z)[1..] == x[1..] + z;
      DigitPrefixAppend(x[1..], z);
      var n := DigitPrefix(x[1..]);
      if 1 + n < |x| {
        assert (x + z)[1 + n] == x[1 + n];
      } else if 1 + n == |x| && z != "" {
        assert (x + z)[1 + n] == z[0];
      }
    }
  }

  lemma PieceAppend(x: string, z: string)
    requires |x| > 0 && IndexAt(x + z) == IndexAt(x)
    ensures Advance(x + z) == Advance(x) && Piece(x + z) == Piece(x)
  {
    var m := IndexAt(x);
    if m > 0 {
      assert (x + z)[1..m - 1] == x[1..m - 1];
    } else {
      assert (x + z)[0] == x[0];
    }
  }

  lemma ReplaceIndexesUnfold(s: string)
    requires |s| > 0
    ensures ReplaceIndexes(s) == Piece(s) + ReplaceIndexes(s[Advance(s)..])
  {
  }

  lemma SliceAppend(x: string, z: string, a: nat)
    requires a <= |x|
    ensures (x + z)[a..] == x[a..] + z
  {
  }

  lemma ConcatAssoc(p: string, q: string, r: string)
    ensures p + (q + r) == (p + q) + r
  {
  }

  /** Text cut after any character that cannot continue a `[digits]` is rewritten piece by piece. */
  lemma {:induction false} ReplaceIndexesAppend(x: string, z: string)
    requires z == "" || (!IsAsciiDigit(z[0]) && z[0] != ']')
    ensures ReplaceIndexes(x + z) == ReplaceIndexes(x) + ReplaceIndexes(z)
    decreases |x|
  {
    if |x| == 0 {
      assert x + z == z;
    } else {
      var rest := x[Advance(x)..];
      ReplaceIndexesAppend(rest, z);
      AppendComposes(x, z);
    }
  }

  /** One step of the rewrite of `x + z` is the step of `x`, followed by the rest of `x` and then `z`. */
  lemma AppendStep(x: string, z: string)
    requires |x| > 0
    requires z == "" || (!IsAsciiDigit(z[0]) && z[0] != ']')
    ensures Advance(x + z) == Advance(x) && Piece(x + z) == Piece(x)
    ensures (x + z)[Advance(x)..] == x[Advance(x)..] + z
  {
    IndexAtAppend(x, z);
    PieceAppend(x, z);
    SliceAppend(x, z, Advance(x));
  }

  /** If the rest of `x` rewrites apart from `z`, so does `x` itself. */
  lemma AppendComposes(x: string, z: string)
    requires |x| > 0
    requires z == "" || (!IsAsciiDigit(z[0]) && z[0] != ']')
    requires ReplaceIndexes(x[Advance(x)..] + z) == ReplaceIndexes(x[Advance(x)..]) + ReplaceIndexes(z)
    ensures ReplaceIndexes(x + z) == ReplaceIndexes(x) + ReplaceIndexes(z)
  {
    AppendStep(x, z);
    ReplaceIndexesUnfold(x + z);
    ReplaceIndexesUnfold(x);
    ConcatAssoc(Piece(x), ReplaceIndexes(x[Advance(x)..]), ReplaceIndexes(z));
  }

  /** Any character but `[` is one step that emits itself. */
  lemma PlainStep(s: string)
    requires |s| > 0 && s[0] != '['
    ensures Advance(s) == 1 && Piece(s) == [s[0]]
  {
  }

  /** A run of digits outside brackets is copied unchanged. */
  lemma {:induction false} ReplaceIndexesDigits(d: string, y: string)
    requires AllDigits(d)
    ensures ReplaceIndexes(d + y) == d + ReplaceIndexes(y)
    decreases |d|
  {
    if |d| > 0 {
      var s := d + y;
      assert s[0] == d[0];
      PlainStep(s);
      ReplaceIndexesDigits(d[1..], y);
      SliceAppend(d, y, 1);
      ReplaceIndexesUnfold(s);
      ConcatAssoc([d[0]], d[1..], ReplaceIndexes(y));
      assert d == [d[0]] + d[1..];
    } else {
      assert d + y == y;
    }
  }

  lemma {:induction false} DigitPrefixAll(d: string)
    requires AllDigits(d)
    ensures DigitPrefix(d) == |d|
  {
    if |d| > 0 {
      DigitPrefixAll(d[1..]);
    }
  }

  /** A `[digits]` in front of `y` is one step that emits `.digits` and resumes at `y`. */
  lemma BracketStep(d: string, y: string)
    requires d != "" && AllDigits(d)
    ensures var z := "[" + d + "]" + y;
      |z| > 0 && Piece(z) == "." + d && z[Advance(z)..] == y
  {
    var z := "[" + d + "]" + y;
    assert z[1..] == d + ("]" + y);
    DigitPrefixAppend(d, "]" + y);
    DigitPrefixAll(d);
    assert z[1 + |d|] == ']';
    assert IndexAt(z) == |d| + 2;
    assert z[1..|d| + 1] == d;
    assert z[|d| + 2..] == y;
  }

  /** A `.` is one step that emits itself. */
  lemma DotStep(d: string, y: string)
    ensures var w := "." + d + y;
      |w| > 0 && Piece(w) == "." && w[Advance(w)..] == d + y
  {
    var w := "." + d + y;
    assert w[0] == '.';
    assert IndexAt(w) == 0;
    assert w[1..] == d + y;
  }

  /** `a[0].b` tokenises like `a.0.b`: an index in brackets reads as a dotted key. */
  lemma IndexReadsAsDottedKey(x: string, d: string, y: string)
    requires d != "" && AllDigits(d)
    ensures ReplaceIndexes(x + "[" + d + "]" + y) == ReplaceIndexes(x + "." + d + y)
    ensures Tokens(x + "[" + d + "]" + y) == Tokens(x + "." + d + y)
  {
    var z := "[" + d + "]" + y;
    var w := "." + d + y;
    assert x + "[" + d + "]" + y == x + z;
    assert x + "." + d + y == x + w;
    ReplaceIndexesAppend(x, z);
    ReplaceIndexesAppend(x, w);
    BracketStep(d, y);
    ReplaceIndexesUnfold(z);
    DotStep(d, y);
    ReplaceIndexesUnfold(w);
    ReplaceIndexesDigits(d, y);
    ConcatAssoc(".", d, ReplaceIndexes(y));
  }

  /** Where walking the tokens from `cur` leads; `None` when a nullish value is met before the end. */
  function Reach(cur: Value, tokens: seq<string>): Option<Value>
    decreases |tokens|
  {
    if |tokens| == 0 then Some(cur)
    else if IsNullish(cur) then None
    else Reach(PropertyOf(cur, tokens[0]), tokens[1..])
  }

  /** `get(obj, path, defaultValue)` on tokens: the value reached, or the default when it is nullish or not reached. */
  function GetPath(obj: Value, tokens: seq<string>, default: Value): Value {
    match Reach(obj, tokens)
    case None => default
    case Some(v) => OrElse(v, default)
  }

  /** `get(obj, path, defaultValue)`: walk the tokens, stopping with the default at a nullish value. */
  method Get(obj: Value, path: string, default: Value) returns (r: Value)
    ensures r == GetPath(obj, Tokens(path), default)
  {
    var tokens := Tokens(path);
    var cur := obj;
    for i := 0 to |tokens|
      invariant Reach(cur, tokens[i..]) == Reach(obj, tokens)
    {
      assert tokens[i..][0] == tokens[i] && tokens[i..][1..] == tokens[i + 1..];
      if IsNullish(cur) {
        return default;
      }
      cur := PropertyOf(cur, tokens[i]);
    }
    assert tokens[|tokens|..] == [];
    return OrElse(cur, default);
  }

  /** Walking a path in two parts is walking the first part and then the second. */
  lemma {:induction false} ReachAppend(cur: Value, a: seq<string>, b: seq<string>)
    decreases |a|
    ensures Reach(cur, a + b) == match Reach(cur, a) case None => None case Some(v) => Reach(v, b)
  {
    if |a| == 0 {
      assert a + b == b;
    } else if !IsNullish(cur) {
      assert (a + b)[0] == a[0] && (a + b)[1..] == a[1..] + b;
      ReachAppend(PropertyOf(cur, a[0]), a[1..], b);
    }
  }

  /** A nullish value part way along the path gives the default. */
  lemma GetThroughNullish(obj: Value, a: seq<string>, b: seq<string>, default: Value)
    requires Reach(obj, a).Some? && IsNullish(Reach(obj, a).value) && |b| > 0
    ensures GetPath(obj, a + b, default) == default
  {
    ReachAppend(obj, a, b);
  }

  // ---- set ----

  /** How a write ends: with the updated root, with a `TypeError`, or on a value this model does not write into. */
  datatype SetOutcome = Written(root: Value) | Thrown | Unsupported

  /** `items[n] = v` on an array: past the end the array grows, and the gap reads as `undefined`. */
  function ArraySet(items: seq<Value>, n: nat, v: Value): (r: seq<Value>)
    ensures |r| == if n < |items| then |items| else n + 1
    ensures r[n] == v
    ensures forall i :: 0 <= i < |items| && i != n ==> r[i] == items[i]
    ensures forall i :: |items| <= i < n ==> r[i] == Undefined
  {
    if n < |items| then items[n := v] else items + seq(n - |items|, _ => Undefined) + [v]
  }

  /**
   * `cur[t] = v` in strict code: a plain object gains or replaces the
   * property, an array the element at an index key; writing onto `null`,
   * `undefined` or a primitive throws.
   */
  function Assign(cur: Value, t: string, v: Value): (r: SetOutcome)
    ensures IsNullish(cur) || cur.Str? || cur.Num? || cur.Bool? ==> r == Thrown
    ensures cur.Obj? ==> r.Written?
    ensures cur.Arr? ==> (r.Written? <==> IsIndexKey(t))
    ensures r.Written? ==> PropertyOf(r.root, t) == v
    ensures r.Written? ==> r.root.Obj? == cur.Obj? && r.root.Arr? == cur.Arr?
  {
    match cur
    case Obj(fs) =>
      LookupPut(fs, t, v, t);
      Written(Obj(Put(fs, t, v)))
    case Arr(items) => if IsIndexKey(t) then Written(Arr(ArraySet(items, DigitsValue(t), v))) else Unsupported
    case Date(_) => Unsupported
    case Form(_) => Unsupported
    case _ => Thrown
  }

  /** Writing one property of an object leaves every other property as it was. */
  lemma AssignObjectOthers(fs: Fields, t: string, v: Value, k: string)
    requires k != t
    ensures Assign(Obj(fs), t, v).root.Obj?
    ensures Lookup(Assign(Obj(fs), t, v).root.fields, k) == Lookup(fs, k)
    ensures HasKey(Assign(Obj(fs), t, v).root.fields, k) <==> HasKey(fs, k)
  {
    LookupPut(fs, t, v, k);
    HasKeyPut(fs, t, v, k);
  }

  /** The index of the first character of `s` that is in `cs`, or `|s|` when there is none. */
  function FirstOf(s: string, cs: set<char>): (i: nat)
    ensures i <= |s| && (i < |s| ==> s[i] in cs)
    ensures forall j :: 0 <= j < i ==> s[j] !in cs
  {
    if |s| == 0 || s[0] in cs then 0 else 1 + FirstOf(s[1..], cs)
  }

  /** How many `0` digits end `s`. */
  function TrailingZeros(s: string): (n: nat)
    ensures n <= |s|
    ensures forall i :: |s| - n <= i < |s| ==> s[i] == '0'
    ensures n < |s| ==> s[|s| - n - 1] != '0'
  {
    if |s| > 0 && s[|s| - 1] == '0' then 1 + TrailingZeros(s[..|s| - 1]) else 0
  }

  /** The digits `d`, times ten to the power `shift`, make a whole number. */
  predicate WholeScaled(d: string, shift: int) {
    TrailingZeros(d) == |d| || TrailingZeros(d) + shift >= 0
  }

  /** The value of an exponent: digits with an optional sign; `None` when malformed. */
  function ExponentOf(s: string): (r: Option<int>)
    ensures r.Some? ==> |s| > 0
  {
    if |s| > 0 && AllDigits(s) then Some(DigitsValue(s))
    else if |s| > 1 && s[0] == '+' && AllDigits(s[1..]) then Some(DigitsValue(s[1..]))
    else if |s| > 1 && s[0] == '-' && AllDigits(s[1..]) then Some(0 - DigitsValue(s[1..]) as int)
    else None
  }

  /**
   * An unsigned decimal literal as `Number` reads it (digits with an
   * optional fraction, at least one digit, and an optional exponent) whose
   * value is a whole number.
   */
  predicate IsWholeDecimal(s: string) {
    var e := FirstOf(s, {'e', 'E'});
    var mantissa := s[..e];
    var p := FirstOf(mantissa, {'.'});
    var whole := mantissa[..p];
    var fraction := if p < |mantissa| then mantissa[p + 1..] else "";
    var exponent := if e < |s| then ExponentOf(s[e + 1..]) else Some(0);
    AllDigits(whole) && AllDigits(fraction) && |whole| + |fraction| > 0 && exponent.Some? &&
    WholeScaled(whole + fraction, exponent.value - |fraction|)
  }

  /** A hexadecimal, octal or binary literal (`0x1f`, `0o17`, `0b101`), always a whole number. */
  predicate IsRadixInteger(u: string) {
    |u| > 2 && u[0] == '0' &&
    ((u[1] in {'x', 'X'} && forall i :: 2 <= i < |u| ==> IsAsciiDigit(u[i]) || 'a' <= u[i] <= 'f' || 'A' <= u[i] <= 'F') ||
     (u[1] in {'o', 'O'} && forall i :: 2 <= i < |u| ==> '0' <= u[i] <= '7') ||
     (u[1] in {'b', 'B'} && forall i :: 2 <= i < |u| ==> u[i] == '0' || u[i] == '1'))
  }

  /**
   * `Number.isInteger(Number(t))` for a path token: after trimming, blank
   * (which `Number` reads as 0), a radix literal, or a decimal literal with
   * an optional sign whose exact value is whole.
   */
  predicate IsIntegerToken(t: string) {
    var u := Trim(t);
    u == "" || IsRadixInteger(u) || IsWholeDecimal(if |u| > 0 && u[0] in {'+', '-'} then u[1..] else u)
  }

  /** A string that neither starts nor ends with whitespace is its own trim. */
  lemma TrimUnpadded(s: string)
    requires |s| > 0 && !IsJsWhitespace(s[0]) && !IsJsWhitespace(s[|s| - 1])
    ensures Trim(s) == s
  {
    assert TrimStart(s) == s;
  }

  /** `Number("1e3")` is the whole number 1000. */
  lemma ExponentToken(u: string)
    requires u == "1e3"
    ensures IsIntegerToken(u)
  {
    TrimUnpadded(u);
    assert FirstOf(u, {'e', 'E'}) == 1;
    assert FirstOf("1", {'.'}) == 1;
    assert ExponentOf("3") == Some(3);
    assert TrailingZeros("1") == 0;
  }

  /** `Number("0x10")` is the whole number 16. */
  lemma RadixToken(u: string)
    requires u == "0x10"
    ensures IsIntegerToken(u)
  {
    TrimUnpadded(u);
    assert IsRadixInteger(Trim(u));
  }

  /** `Number("1.0")` is the whole number 1. */
  lemma ZeroFractionToken(u: string)
    requires u == "1.0"
    ensures IsIntegerToken(u)
  {
    TrimUnpadded(u);
    assert FirstOf(u, {'e', 'E'}) == 3;
    assert FirstOf(u, {'.'}) == 1;
    assert u[2..] == "0" && "1" + "0" == "10";
    assert TrailingZeros("10") == 1;
  }

  /** `Number("1.5")` is not a whole number. */
  lemma FractionToken(u: string)
    requires u == "1.5"
    ensures !IsIntegerToken(u)
  {
    TrimUnpadded(u);
    assert !IsRadixInteger(u);
    assert FirstOf(u, {'e', 'E'}) == 3;
    assert FirstOf(u, {'.'}) == 1;
    assert u[2..] == "5" && "1" + "5" == "15";
    assert TrailingZeros("15") == 0;
  }

  /** `Number("15e-1")` is 1.5, while `Number("150e-1")` is the whole number 15. */
  lemma NegativeExponentToken(u: string, w: string)
    requires u == "15e-1" && w == "150e-1"
    ensures !IsIntegerToken(u) && IsIntegerToken(w)
  {
    TrimUnpadded(u);
    assert !IsRadixInteger(u);
    assert u[1..][1..] == u[2..] && u[2] == 'e';
    assert FirstOf(u[1..], {'e', 'E'}) == 1;
    assert FirstOf(u, {'e', 'E'}) == 2;
    assert FirstOf("15", {'.'}) == 2;
    assert u[3..] == "-1" && ExponentOf("-1") == Some(-1);
    assert TrailingZeros("15") == 0;
    TrimUnpadded(w);
    assert !IsRadixInteger(w);
    assert w[1..][1..] == w[2..] && w[2..][1..] == w[3..] && w[3] == 'e';
    assert FirstOf(w[2..], {'e', 'E'}) == 1;
    assert FirstOf(w[1..], {'e', 'E'}) == 2;
    assert FirstOf(w, {'e', 'E'}) == 3;
    assert FirstOf("150", {'.'}) == 3;
    assert w[4..] == "-1";
    assert TrailingZeros("150") == 1;
  }

  /** The container `set` creates for a missing step: an array when the next token is an integer, else an object. */
  function Fresh(next: string): (c: Value)
    ensures c.Arr? <==> IsIntegerToken(next)
    ensures c.Obj? <==> !IsIntegerToken(next)
  {
    if IsIntegerToken(next) then Arr([]) else Obj([])
  }

  /** The value the walk of `set` steps into: the existing property, or a fresh container when it is nullish. */
  function StepInto(cur: Value, t: string, next: string): Value {
    var child := PropertyOf(cur, t);
    if IsNullish(child) then Fresh(next) else child
  }

  /**
   * The loop of `set(obj, path, value)` on the tokens: the last token is
   * assigned; at every earlier one a nullish property is first replaced by
   * a fresh container, and then the walk goes on inside it.
   */
  function SetPath(cur: Value, tokens: seq<string>, v: Value): (r: SetOutcome)
    requires |tokens| > 0
    ensures IsNullish(cur) ==> r == Thrown
    decreases |tokens|
  {
    var t := tokens[0];
    if |tokens| == 1 then Assign(cur, t, v)
    else if IsNullish(cur) then Thrown
    else
      var created := Assign(cur, t, Fresh(tokens[1]));
      if IsNullish(PropertyOf(cur, t)) && !created.Written? then created
      else
        match SetPath(StepInto(cur, t, tokens[1]), tokens[1..], v)
        case Written(c) => Assign(cur, t, c)
        case failed => failed
  }

  /** `set(obj, path, value)`: an empty path changes nothing. */
  function Set(obj: Value, path: string, v: Value): SetOutcome {
    var tokens := Tokens(path);
    if |tokens| == 0 then Written(obj) else SetPath(obj, tokens, v)
  }

  /** A successful write replaced the first token's property by `c`: `v` itself, or the child written along the rest of the path. */
  lemma SetPathStep(cur: Value, tokens: seq<string>, v: Value) returns (c: Value)
    requires |tokens| > 0 && SetPath(cur, tokens, v).Written?
    ensures Assign(cur, tokens[0], c) == SetPath(cur, tokens, v)
    ensures |tokens| == 1 ==> c == v
    ensures |tokens| > 1 ==> SetPath(StepInto(cur, tokens[0], tokens[1]), tokens[1..], v) == Written(c)
  {
    if |tokens| == 1 {
      c := v;
    } else {
      c := SetPath(StepInto(cur, tokens[0], tokens[1]), tokens[1..], v).root;
    }
  }

  /** A successful write keeps the kind of the value written into. */
  lemma SetPathKeepsKind(cur: Value, tokens: seq<string>, v: Value)
    requires |tokens| > 0 && SetPath(cur, tokens, v).Written?
    ensures SetPath(cur, tokens, v).root.Obj? == cur.Obj?
    ensures SetPath(cur, tokens, v).root.Arr? == cur.Arr?
  {
    var c := SetPathStep(cur, tokens, v);
  }

  /** After a successful `set`, walking the same tokens reaches the value written. */
  lemma {:induction false} SetThenReach(cur: Value, tokens: seq<string>, v: Value)
    requires |tokens| > 0 && SetPath(cur, tokens, v).Written?
    ensures Reach(SetPath(cur, tokens, v).root, tokens) == Some(v)
    decreases |tokens|
  {
    var r := SetPath(cur, tokens, v).root;
    var c := SetPathStep(cur, tokens, v);
    assert PropertyOf(r, tokens[0]) == c;
    assert !IsNullish(r) by { SetPathKeepsKind(cur, tokens, v); }
    if |tokens| > 1 {
      SetThenReach(StepInto(cur, tokens[0], tokens[1]), tokens[1..], v);
    }
  }

  /** `get(set(obj, path, v), path, d)` is `v ?? d` whenever the write succeeds. */
  lemma SetThenGet(obj: Value, path: string, v: Value, default: Value)
    requires Set(obj, path, v).Written? && Tokens(path) != []
    ensures GetPath(Set(obj, path, v).root, Tokens(path), default) == OrElse(v, default)
  {
    SetThenReach(obj, Tokens(path), v);
  }

  /** Writing along a path into an object leaves every property but the path's first one as it was. */
  lemma SetPathOthers(fs: Fields, tokens: seq<string>, v: Value, k: string)
    requires |tokens| > 0 && SetPath(Obj(fs), tokens, v).Written? && k != tokens[0]
    ensures SetPath(Obj(fs), tokens, v).root.Obj?
    ensures Lookup(SetPath(Obj(fs), tokens, v).root.fields, k) == Lookup(fs, k)
    ensures HasKey(SetPath(Obj(fs), tokens, v).root.fields, k) <==> HasKey(fs, k)
  {
    var c := SetPathStep(Obj(fs), tokens, v);
    AssignObjectOthers(fs, tokens[0], v, k);
    AssignObjectOthers(fs, tokens[0], c, k);
  }

  /** A missing step of the path is created as an array exactly when the token after it is an integer. */
  lemma SetPathCreates(fs: Fields, tokens: seq<string>, v: Value)
    requires |tokens| > 1 && !HasKey(fs, tokens[0]) && SetPath(Obj(fs), tokens, v).Written?
    ensures var created := Lookup(SetPath(Obj(fs), tokens, v).root.fields, tokens[0]);
      (created.Arr? <==> IsIntegerToken(tokens[1])) && (created.Obj? <==> !IsIntegerToken(tokens[1]))
  {
    var c := SetPathStep(Obj(fs), tokens, v);
    SetPathKeepsKind(Fresh(tokens[1]), tokens[1..], v);
  }

  /** Walking into a string, number or boolean always ends in a `TypeError`: its properties are never writable. */
  lemma {:induction false} SetPathPrimitiveThrows(cur: Value, tokens: seq<string>, v: Value)
    requires |tokens| > 0 && (cur.Str? || cur.Num? || cur.Bool?)
    ensures SetPath(cur, tokens, v) == Thrown
    decreases |tokens|
  {
    if |tokens| > 1 {
      var child := PropertyOf(cur, tokens[0]);
      if !IsNullish(child) {
        assert child.Str? || child.Num?;
        SetPathPrimitiveThrows(child, tokens[1..], v);
      }
    }
  }
}
