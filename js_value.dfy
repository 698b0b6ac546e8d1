/**
 * The JavaScript values the library passes around as `unknown`/`any`:
 * request bodies, query parameters, stored values and environment maps.
 *
 * Objects are ordered lists of own enumerable properties (insertion order,
 * as `Object.keys`/`Object.entries` report them); a well-formed object never
 * holds the same key twice. Numbers are integers, a `Date` is represented by
 * its ISO text, and a `URLSearchParams` by its list of name/value pairs.
 */
module JsValue {
  import opened Common

  datatype Value =
    | Undefined
    | Null
    | Bool(b: bool)
    | Num(n: int)
    | Str(s: string)
    | Date(iso: string)
    | Arr(items: seq<Value>)
    | Obj(fields: seq<(string, Value)>)
    | Form(pairs: seq<(string, string)>)

  type Fields = seq<(string, Value)>

  /** JavaScript truthiness (`NaN` is not a value of this model). */
  predicate Truthy(v: Value) {
    match v
    case Undefined => false
    case Null => false
    case Bool(b) => b
    case Num(n) => n != 0
    case Str(s) => s != ""
    case _ => true
  }

  /** `v == null`: true exactly for `null` and `undefined`. */
  predicate IsNullish(v: Value) {
    v.Undefined? || v.Null?
  }

  /** `typeof v === 'object' && v !== null` (dates, arrays and form bodies included). */
  predicate IsObjectLike(v: Value) {
    v.Date? || v.Arr? || v.Obj? || v.Form?
  }

  /** `a ?? b`. */
  function OrElse(a: Value, b: Value): (r: Value)
    ensures IsNullish(a) ==> r == b
    ensures !IsNullish(a) ==> r == a
  {
    if IsNullish(a) then b else a
  }

  /** `a || b`. */
  function Or(a: Value, b: Value): (r: Value)
    ensures Truthy(a) ==> r == a
    ensures !Truthy(a) ==> r == b
  {
    if Truthy(a) then a else b
  }

  // ---- String(v) ----

  /**
   * `String(v)`. A form body prints its undecoded pairs. A date is given
   * its ISO text here, in place of the time-zone dependent text of
   * `Date.prototype.toString`.
   */
  function ToJsString(v: Value): string
    decreases v, 1
  {
    match v
    case Undefined => "undefined"
    case Null => "null"
    case Bool(b) => if b then "true" else "false"
    case Num(n) => IntToString(n)
    case Str(s) => s
    case Date(iso) => iso
    case Arr(items) => ItemsToJsString(items)
    case Obj(_) => "[object Object]"
    case Form(pairs) => FormText(pairs)
  }

  /** `Array.prototype.toString`: elements joined by `,`, with `null`/`undefined` printed as empty. */
  function ItemsToJsString(items: seq<Value>): string
    decreases items, 0
  {
    if |items| == 0 then ""
    else
      var head := if IsNullish(items[0]) then "" else ToJsString(items[0]);
      if |items| == 1 then head else head + "," + ItemsToJsString(items[1..])
  }

  /** `URLSearchParams.prototype.toString`, without the percent-encoding of names and values. */
  function FormText(pairs: seq<(string, string)>): string {
    if |pairs| == 0 then ""
    else
      var p := pairs[0].0 + "=" + pairs[0].1;
      if |pairs| == 1 then p else p + "&" + FormText(pairs[1..])
  }

  // ---- ordered records ----

  function Keys<V>(fs: seq<(string, V)>): (r: seq<string>)
    ensures |r| == |fs|
    ensures forall i :: 0 <= i < |fs| ==> r[i] == fs[i].0
  {
    seq(|fs|, i requires 0 <= i < |fs| => fs[i].0)
  }

  predicate HasKey<V>(fs: seq<(string, V)>, k: string) {
    exists i :: 0 <= i < |fs| && fs[i].0 == k
  }

  predicate UniqueKeys<V>(fs: seq<(string, V)>) {
    forall i, j :: 0 <= i < j < |fs| ==> fs[i].0 != fs[j].0
  }

  /** `obj[k]`: the value of the first property named `k`, or `undefined`. */
  function Lookup(fs: Fields, k: string): (r: Value)
    ensures !HasKey(fs, k) ==> r == Undefined
    ensures HasKey(fs, k) ==> exists i :: 0 <= i < |fs| && fs[i] == (k, r)
  {
    if |fs| == 0 then Undefined
    else if fs[0].0 == k then fs[0].1
    else
      var r := Lookup(fs[1..], k);
      assert HasKey(fs, k) ==> HasKey(fs[1..], k) by {
        if HasKey(fs, k) {
          var i :| 0 <= i < |fs| && fs[i].0 == k;
          assert fs[1..][i - 1].0 == k;
        }
      }
      assert HasKey(fs[1..], k) ==> exists i :: 0 <= i < |fs| && fs[i] == (k, r) by {
        if HasKey(fs[1..], k) {
          var i :| 0 <= i < |fs[1..]| && fs[1..][i] == (k, r);
          assert fs[i + 1] == (k, r);
        }
      }
      r
  }

  /** `k` names an array index: the canonical decimal text of a natural number. */
  predicate IsIndexKey(k: string) {
    k != "" && AllDigits(k) && NatToString(DigitsValue(k)) == k
  }

  /**
   * `v?.[k]`: a property of an object, `length` or an index of an array or
   * string, and `undefined` for anything else (including `null` and
   * `undefined` themselves, as optional chaining reads them).
   */
  function PropertyOf(v: Value, k: string): (r: Value)
    ensures v.Obj? ==> r == Lookup(v.fields, k)
    ensures IsNullish(v) ==> r == Undefined
  {
    match v
    case Obj(fs) => Lookup(fs, k)
    case Arr(items) =>
      if k == "length" then Num(|items|)
      else if IsIndexKey(k) && DigitsValue(k) < |items| then items[DigitsValue(k)]
      else Undefined
    case Str(s) =>
      if k == "length" then Num(|s|)
      else if IsIndexKey(k) && DigitsValue(k) < |s| then Str([s[DigitsValue(k)]])
      else Undefined
    case _ => Undefined
  }

  /** `obj[k] = v`: an existing property keeps its position, a new one goes last. */
  function Put<V>(fs: seq<(string, V)>, k: string, v: V): (r: seq<(string, V)>)
    ensures HasKey(fs, k) ==> |r| == |fs|
    ensures !HasKey(fs, k) ==> r == fs + [(k, v)]
  {
    if |fs| == 0 then [(k, v)]
    else if fs[0].0 == k then [(k, v)] + fs[1..]
    else
      var r := [fs[0]] + Put(fs[1..], k, v);
      assert HasKey(fs, k) ==> HasKey(fs[1..], k) by {
        if HasKey(fs, k) {
          var i :| 0 <= i < |fs| && fs[i].0 == k;
          assert fs[1..][i - 1].0 == k;
        }
      }
      assert !HasKey(fs, k) ==> !HasKey(fs[1..], k) by {
        if HasKey(fs[1..], k) {
          var i :| 0 <= i < |fs[1..]| && fs[1..][i].0 == k;
          assert fs[i + 1].0 == k;
        }
      }
      r
  }

  /** `delete obj[k]`. */
  function Remove<V>(fs: seq<(string, V)>, k: string): (r: seq<(string, V)>)
    ensures |r| <= |fs|
    ensures forall i :: 0 <= i < |r| ==> r[i].0 != k
    ensures forall i :: 0 <= i < |r| ==> r[i] in fs
  {
    if |fs| == 0 then []
    else if fs[0].0 == k then Remove(fs[1..], k)
    else [fs[0]] + Remove(fs[1..], k)
  }

  /** `{ ...a, ...b }`. */
  function Spread<V>(a: seq<(string, V)>, b: seq<(string, V)>): seq<(string, V)>
    decreases |b|
  {
    if |b| == 0 then a else Spread(Put(a, b[0].0, b[0].1), b[1..])
  }

  lemma {:induction false} LookupPut(fs: Fields, k: string, v: Value, k': string)
    ensures Lookup(Put(fs, k, v), k') == if k' == k then v else Lookup(fs, k')
  {
    if |fs| > 0 && fs[0].0 != k {
      LookupPut(fs[1..], k, v, k');
      assert Put(fs, k, v)[1..] == Put(fs[1..], k, v);
    }
  }

  lemma HasKeyCons<V>(fs: seq<(string, V)>, k: string)
    requires |fs| > 0
    ensures HasKey(fs, k) <==> fs[0].0 == k || HasKey(fs[1..], k)
  {
    if HasKey(fs, k) && fs[0].0 != k {
      var i :| 0 <= i < |fs| && fs[i].0 == k;
      assert fs[1..][i - 1].0 == k;
    }
    if HasKey(fs[1..], k) {
      var i :| 0 <= i < |fs[1..]| && fs[1..][i].0 == k;
      assert fs[i + 1].0 == k;
    }
  }

  lemma {:induction false} HasKeyPut<V>(fs: seq<(string, V)>, k: string, v: V, k': string)
    ensures HasKey(Put(fs, k, v), k') <==> k' == k || HasKey(fs, k')
  {
    var r := Put(fs, k, v);
    if |fs| == 0 {
      HasKeyCons(r, k');
    } else if fs[0].0 != k {
      HasKeyPut(fs[1..], k, v, k');
      assert r[1..] == Put(fs[1..], k, v);
      HasKeyCons(r, k');
      HasKeyCons(fs, k');
    } else {
      assert r[1..] == fs[1..];
      HasKeyCons(r, k');
      HasKeyCons(fs, k');
    }
  }

  lemma {:induction false} PutKeepsUnique<V>(fs: seq<(string, V)>, k: string, v: V)
    requires UniqueKeys(fs)
    ensures UniqueKeys(Put(fs, k, v))
  {
    if |fs| > 0 && fs[0].0 != k {
      PutKeepsUnique(fs[1..], k, v);
      var tail := Put(fs[1..], k, v);
      var r := [fs[0]] + tail;
      forall j | 0 < j < |r|
        ensures r[0].0 != r[j].0
      {
        HasKeyPut(fs[1..], k, v, fs[0].0);
        assert tail[j - 1].0 == r[j].0;
        if r[j].0 == fs[0].0 {
          assert HasKey(tail, fs[0].0);
        }
      }
    } else if |fs| > 0 {
      var r := Put(fs, k, v);
      assert forall i :: 0 <= i < |r| ==> r[i].0 == fs[i].0;
    }
  }

  lemma {:induction false} LookupRemove(fs: Fields, k: string, k': string)
    ensures Lookup(Remove(fs, k), k') == if k' == k then Undefined else Lookup(fs, k')
  {
    if |fs| > 0 {
      LookupRemove(fs[1..], k, k');
      HasKeyRemove(fs, k, k);
    }
  }

  lemma {:induction false} HasKeyRemove<V>(fs: seq<(string, V)>, k: string, k': string)
    ensures HasKey(Remove(fs, k), k') <==> k' != k && HasKey(fs, k')
  {
    if |fs| > 0 {
      HasKeyRemove(fs[1..], k, k');
      HasKeyCons(fs, k');
      var r := Remove(fs, k);
      if fs[0].0 != k {
        assert r[1..] == Remove(fs[1..], k);
        HasKeyCons(r, k');
      }
    }
  }

  lemma {:induction false} LookupSpread(a: Fields, b: Fields, k: string)
    requires UniqueKeys(b)
    ensures Lookup(Spread(a, b), k) == if HasKey(b, k) then Lookup(b, k) else Lookup(a, k)
    ensures HasKey(Spread(a, b), k) <==> HasKey(a, k) || HasKey(b, k)
    decreases |b|
  {
    if |b| > 0 {
      var a' := Put(a, b[0].0, b[0].1);
      assert UniqueKeys(b[1..]) by {
        forall i, j | 0 <= i < j < |b[1..]| ensures b[1..][i].0 != b[1..][j].0 {
          assert b[1..][i] == b[i + 1] && b[1..][j] == b[j + 1];
        }
      }
      LookupSpread(a', b[1..], k);
      LookupPut(a, b[0].0, b[0].1, k);
      HasKeyPut(a, b[0].0, b[0].1, k);
      if HasKey(b[1..], k) {
        var i :| 0 <= i < |b[1..]| && b[1..][i].0 == k;
        assert b[i + 1].0 == k;
        assert b[0].0 != k;
      }
      if HasKey(b, k) && b[0].0 != k {
        var i :| 0 <= i < |b| && b[i].0 == k;
        assert b[1..][i - 1].0 == k;
      }
      if b[0].0 == k {
        assert HasKey(b, k);
      }
    }
  }

  lemma {:induction false} SpreadKeepsUnique<V>(a: seq<(string, V)>, b: seq<(string, V)>)
    requires UniqueKeys(a)
    ensures UniqueKeys(Spread(a, b))
    decreases |b|
  {
    if |b| > 0 {
      PutKeepsUnique(a, b[0].0, b[0].1);
      SpreadKeepsUnique(Put(a, b[0].0, b[0].1), b[1..]);
    }
  }
}
