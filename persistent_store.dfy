/**
 * `PersistentStore`: a namespaced key-value store over a string storage
 * adapter. A value for key `k` in namespace `ns` is kept, as JSON text,
 * under `ns:k`; the list of keys of the namespace is kept, as a JSON array,
 * under `ns::__keys__`.
 *
 * The adapter is `MemoryAdapter`, whose map is the state. Each store
 * operation is a method proved to leave the map equal to a function of the
 * map before it (`AfterSet`, `AfterRemove`, ...); the lemmas state what a
 * later `get`, `has` or `keys` then sees.
 */
module PersistentStorage {
  import opened Common
  import opened JsValue
  import opened Json

  /** The adapter's map. `None` is a stored `undefined`, which reads back like a missing item. */
  type Storage = map<string, Option<string>>

  /** `getItem(k)`: the stored text, `None` for `null`/`undefined`. */
  function ReadItem(store: Storage, k: string): Option<string> {
    if k in store then store[k] else None
  }

  class MemoryAdapter {
    var store: Storage

    constructor()
      ensures store == map[]
    {
      store := map[];
    }

    function GetItem(key: string): (r: Option<string>)
      reads this
      ensures key !in store ==> r.None?
    {
      ReadItem(store, key)
    }

    method SetItem(key: string, value: Option<string>)
      modifies this
      ensures store == old(store)[key := value]
    {
      store := store[key := value];
    }

    method RemoveItem(key: string)
      modifies this
      ensures store == old(store) - {key}
    {
      store := store - {key};
    }
  }

  // ---- keys and their encoding ----

  function FullKey(ns: string, key: string): string {
    ns + ":" + key
  }

  function IndexKey(ns: string): string {
    ns + "::__keys__"
  }

  /** The one key whose full key is the index key. */
  const IndexSuffix: string := ":__keys__"

  lemma IndexKeyDistinct(ns: string, key: string)
    requires key != IndexSuffix
    ensures FullKey(ns, key) != IndexKey(ns)
  {
    assert FullKey(ns, key)[|ns| + 1..] == key;
    assert IndexKey(ns)[|ns| + 1..] == IndexSuffix;
  }

  lemma FullKeyInjective(ns: string, a: string, b: string)
    requires a != b
    ensures FullKey(ns, a) != FullKey(ns, b)
  {
    assert FullKey(ns, a)[|ns| + 1..] == a;
    assert FullKey(ns, b)[|ns| + 1..] == b;
  }

  /** The key `:__keys__` is stored under the index key itself. */
  lemma IndexKeyCollision(ns: string)
    ensures FullKey(ns, IndexSuffix) == IndexKey(ns)
  {
  }

  function StrItems(ks: seq<string>): (r: seq<Value>)
    ensures |r| == |ks|
    ensures forall i :: 0 <= i < |ks| ==> r[i] == Str(ks[i])
  {
    seq(|ks|, i requires 0 <= i < |ks| => Str(ks[i]))
  }

  /** `JSON.stringify` of the array `[...keys, key]` or `keys.filter(...)` writes back. */
  function EncodeItems(items: seq<Value>): string {
    Stringify(Arr(items)).value
  }

  /** `JSON.stringify(keys)` for a list of key strings. */
  function EncodeKeys(ks: seq<string>): string {
    EncodeItems(StrItems(ks))
  }

  /**
   * `keys()`: the parsed index, and `[]` when it is missing, empty or not
   * JSON. The parsed value is not checked, so a string, a number, `null` or
   * an object comes back as it is.
   */
  function KeysValue(raw: Option<string>): (r: Value)
    ensures raw.None? || raw.value == "" ==> r == Arr([])
    ensures raw.Some? && raw.value != "" && Parse(raw.value).None? ==> r == Arr([])
    ensures raw.Some? && raw.value != "" && Parse(raw.value).Some? ==> r == FromJson(Parse(raw.value).value)
    ensures !r.Undefined?
  {
    if raw.None? || raw.value == "" then Arr([])
    else match Parse(raw.value)
      case None => Arr([])
      case Some(j) => FromJson(j)
  }

  /** One key per character: what iterating or spreading a string yields. */
  function CharKeys(s: string): (r: seq<string>)
    ensures |r| == |s|
    ensures forall i :: 0 <= i < |s| ==> r[i] == [s[i]]
  {
    seq(|s|, i requires 0 <= i < |s| => [s[i]])
  }

  /**
   * `keys.includes(key)`: an array holds the string, a string contains it;
   * `None` where the value has no `includes` method and the call throws.
   */
  function Includes(keys: Value, key: string): (r: Option<bool>)
    ensures r.Some? <==> keys.Arr? || keys.Str?
  {
    match keys
    case Arr(items) => Some(Str(key) in items)
    case Str(text) => Some(Contains(text, key))
    case _ => None
  }

  /**
   * `for (const k of keys)` and `[...keys]`: the elements of an array, the
   * characters of a string; `None` where the value is not iterable and the
   * loop throws.
   */
  function Elements(keys: Value): (r: Option<seq<Value>>)
    ensures r.Some? <==> keys.Arr? || keys.Str?
  {
    match keys
    case Arr(items) => Some(items)
    case Str(text) => Some(StrItems(CharKeys(text)))
    case _ => None
  }

  /** The text `${k}` of each element, as the template literals of `clear` and `get` print it. */
  function KeyTexts(items: seq<Value>): (r: seq<string>)
    ensures |r| == |items|
    ensures forall i :: 0 <= i < |items| ==> r[i] == ToJsString(items[i])
  {
    seq(|items|, i requires 0 <= i < |items| => ToJsString(items[i]))
  }

  /** `keys.filter(k => k !== key)`: every element other than the string `key`, in order. */
  function Filter(items: seq<Value>, key: string): (r: seq<Value>)
    ensures Str(key) !in r
    ensures forall v :: v in r <==> v in items && v != Str(key)
  {
    if |items| == 0 then [] else (if items[0] == Str(key) then [] else [items[0]]) + Filter(items[1..], key)
  }

  /** An array of strings: the shape the store itself writes its index in. */
  predicate IsKeyList(v: Value) {
    v.Arr? && forall i :: 0 <= i < |v.items| ==> v.items[i].Str?
  }

  /** The strings of an array of strings. */
  function KeysOf(v: Value): (ks: seq<string>)
    requires IsKeyList(v)
    ensures v == Arr(StrItems(ks))
  {
    seq(|v.items|, i requires 0 <= i < |v.items| => v.items[i].s)
  }

  lemma KeysOfStrItems(ks: seq<string>)
    ensures IsKeyList(Arr(StrItems(ks))) && KeysOf(Arr(StrItems(ks))) == ks
  {
    var r := KeysOf(Arr(StrItems(ks)));
    assert StrItems(r) == StrItems(ks);
    assert forall i :: 0 <= i < |ks| ==> Str(r[i]) == StrItems(r)[i] == StrItems(ks)[i] == Str(ks[i]);
  }

  lemma {:induction false} StrItemsJson(ks: seq<string>)
    ensures ItemsFromJson(ItemsToJson(StrItems(ks))) == StrItems(ks)
  {
    if |ks| > 0 {
      assert StrItems(ks)[1..] == StrItems(ks[1..]);
      StrItemsJson(ks[1..]);
    }
  }

  /** What `JSON.parse(JSON.stringify(keys))` builds is the array of keys again. */
  lemma KeysImage(ks: seq<string>)
    ensures Stringify(Arr(StrItems(ks))).Some?
    ensures Parse(EncodeKeys(ks)) == ToJson(Arr(StrItems(ks)))
    ensures FromJson(ToJson(Arr(StrItems(ks))).value) == Arr(StrItems(ks))
  {
    var v := Arr(StrItems(ks));
    assert WellFormedValue(v);
    StringifyParse(v);
    StrItemsJson(ks);
  }

  /** Writing a list of keys and reading it back with `keys()` gives the same array. */
  lemma DecodeEncodeKeys(ks: seq<string>)
    ensures KeysValue(Some(EncodeKeys(ks))) == Arr(StrItems(ks))
  {
    KeysImage(ks);
    assert EncodeKeys(ks)[0] == '[';
  }

  /** A string written where the index belongs is read back by `keys()` as that string. */
  lemma StringIndexIsText(text: string)
    ensures KeysValue(Stringify(Str(text))) == Str(text)
  {
    StringifyParse(Str(text));
  }

  /** The text `null` written where the index belongs is read back by `keys()` as `null`. */
  lemma NullIndexIsNull()
    ensures KeysValue(Some("null")) == Null
  {
    assert Serialize(JNull) == "null";
    ParseSerialize(JNull);
  }

  // ---- values ----

  /** What a `get` returns for a value that was `set`: its JSON image, or the default for `undefined`. */
  function Image(v: Value, defaultValue: Value): Value {
    if v.Undefined? then defaultValue else FromJson(ToJson(v).value)
  }

  /** `get(key, defaultValue)` on a storage map. */
  function GetValue(store: Storage, ns: string, key: string, defaultValue: Value): (r: Value)
    ensures ReadItem(store, FullKey(ns, key)).None? ==> r == defaultValue
    ensures ReadItem(store, FullKey(ns, key)).Some? && Parse(ReadItem(store, FullKey(ns, key)).value).None? ==> r == defaultValue
  {
    var raw := ReadItem(store, FullKey(ns, key));
    if raw.None? then defaultValue
    else match Parse(raw.value)
      case None => defaultValue
      case Some(j) => FromJson(j)
  }

  /** What `keys()` returns in a storage map. */
  function IndexValue(store: Storage, ns: string): Value {
    KeysValue(ReadItem(store, IndexKey(ns)))
  }

  /** The index is an array of strings. */
  predicate ListIndex(store: Storage, ns: string) {
    IsKeyList(IndexValue(store, ns))
  }

  /** The keys of an index that is an array of strings. */
  function IndexOf(store: Storage, ns: string): seq<string>
    requires ListIndex(store, ns)
  {
    KeysOf(IndexValue(store, ns))
  }

  /** Writing a list of keys to the index makes it that list. */
  lemma WrittenIndex(store: Storage, ns: string, ks: seq<string>)
    ensures var after := store[IndexKey(ns) := Some(EncodeKeys(ks))];
      ListIndex(after, ns) && IndexOf(after, ns) == ks
  {
    DecodeEncodeKeys(ks);
    KeysOfStrItems(ks);
  }

  // ---- the operations on the map ----

  /** Construction: an empty index is written only when none is stored. */
  function Initialized(store: Storage, ns: string): Storage {
    if ReadItem(store, IndexKey(ns)).None? then store[IndexKey(ns) := Some(EncodeKeys([]))] else store
  }

  /** The map once `set` has written the value, before it reads the index. */
  function Stored(store: Storage, ns: string, key: string, value: Value): Storage {
    store[FullKey(ns, key) := Stringify(value)]
  }

  /** `set` throws when the index it reads back has no `includes`; the value is written by then. */
  predicate SetThrows(store: Storage, ns: string, key: string, value: Value) {
    Includes(IndexValue(Stored(store, ns, key, value), ns), key).None?
  }

  /**
   * `set(key, value)`: store the value, then read the index back and, when
   * it does not include the key, write the index spread out with the key
   * appended.
   */
  function AfterSet(store: Storage, ns: string, key: string, value: Value): Storage {
    var written := Stored(store, ns, key, value);
    var keys := IndexValue(written, ns);
    if Includes(keys, key) == Some(false) then written[IndexKey(ns) := Some(EncodeItems(Elements(keys).value + [Str(key)]))]
    else written
  }

  /** The index without any occurrence of `key`. */
  function Without(ks: seq<string>, key: string): (r: seq<string>)
    ensures key !in r
    ensures forall k :: k in r <==> k in ks && k != key
  {
    if |ks| == 0 then [] else (if ks[0] == key then [] else [ks[0]]) + Without(ks[1..], key)
  }

  /** `remove` throws when the index it reads has no `filter`, that is, is not an array; the value is deleted by then. */
  predicate RemoveThrows(store: Storage, ns: string, key: string) {
    !IndexValue(store - {FullKey(ns, key)}, ns).Arr?
  }

  /** `remove(key)`: delete the value, then rewrite an array index without the key. */
  function AfterRemove(store: Storage, ns: string, key: string): Storage {
    var removed := store - {FullKey(ns, key)};
    var keys := IndexValue(removed, ns);
    if keys.Arr? then removed[IndexKey(ns) := Some(EncodeItems(Filter(keys.items, key)))] else removed
  }

  /** The values of `ks` deleted one after the other. */
  function RemoveAll(store: Storage, ns: string, ks: seq<string>): Storage
    decreases |ks|
  {
    if |ks| == 0 then store else RemoveAll(store - {FullKey(ns, ks[0])}, ns, ks[1..])
  }

  /** `clear` throws, before deleting anything, when the index is not iterable. */
  predicate ClearThrows(store: Storage, ns: string) {
    Elements(IndexValue(store, ns)).None?
  }

  /** `clear()`: delete the value of every element of the index, then write an empty index. */
  function AfterClear(store: Storage, ns: string): Storage {
    var keys := Elements(IndexValue(store, ns));
    if keys.None? then store else RemoveAll(store, ns, KeyTexts(keys.value))[IndexKey(ns) := Some(EncodeKeys([]))]
  }

  /** The record `export` builds from `acc` by reading each of `ks`. */
  function ExportFrom(store: Storage, ns: string, ks: seq<string>, acc: Fields): Fields
    decreases |ks|
  {
    if |ks| == 0 then acc else ExportFrom(store, ns, ks[1..], Put(acc, ks[0], GetValue(store, ns, ks[0], Undefined)))
  }

  /** `export()`: `None` where the index is not iterable and the loop throws. */
  function ExportOf(store: Storage, ns: string): Option<Fields> {
    var keys := Elements(IndexValue(store, ns));
    if keys.None? then None else Some(ExportFrom(store, ns, KeyTexts(keys.value), []))
  }

  /** `import(data)`: `set(k, data[k])` for each of `ks` in turn, stopping at the first `set` that throws. */
  function AfterImport(store: Storage, ns: string, ks: seq<string>, data: Fields): Storage
    decreases |ks|
  {
    if |ks| == 0 then store
    else
      var next := AfterSet(store, ns, ks[0], Lookup(data, ks[0]));
      if SetThrows(store, ns, ks[0], Lookup(data, ks[0])) then next else AfterImport(next, ns, ks[1..], data)
  }

  /** Some `set` of the import throws. */
  predicate ImportThrows(store: Storage, ns: string, ks: seq<string>, data: Fields)
    decreases |ks|
  {
    |ks| > 0 &&
    (SetThrows(store, ns, ks[0], Lookup(data, ks[0])) ||
     ImportThrows(AfterSet(store, ns, ks[0], Lookup(data, ks[0])), ns, ks[1..], data))
  }

  // ---- the store ----

  class PersistentStore {
    const ns: string
    const adapter: MemoryAdapter
    const indexKey: string

    /** The private constructor: remember the namespace and create an empty index when none exists. */
    constructor(ns: string, adapter: MemoryAdapter)
      modifies adapter
      ensures this.ns == ns && this.adapter == adapter && indexKey == IndexKey(ns)
      ensures adapter.store == Initialized(old(adapter.store), ns)
    {
      this.ns := ns;
      this.adapter := adapter;
      this.indexKey := ns + "::__keys__";
      new;
      if adapter.GetItem(indexKey).None? {
        adapter.SetItem(indexKey, Some(EncodeKeys([])));
      }
    }

    /** `keys()`: the parsed index, an array of the keys when the store wrote it. */
    function Keys(): (r: Value)
      reads adapter
      ensures adapter.GetItem(indexKey).None? ==> r == Arr([])
      ensures indexKey == IndexKey(ns) && ListIndex(adapter.store, ns) ==> r == Arr(StrItems(IndexOf(adapter.store, ns)))
    {
      KeysValue(adapter.GetItem(indexKey))
    }

    /** `has(key)`: something other than `null`/`undefined` is stored. */
    function Has(key: string): (r: bool)
      reads adapter
      ensures r <==> ReadItem(adapter.store, FullKey(ns, key)).Some?
    {
      adapter.GetItem(ns + ":" + key).Some?
    }

    /** `get(key, defaultValue)`. */
    function Get(key: string, defaultValue: Value): (r: Value)
      reads adapter
      ensures !Has(key) ==> r == defaultValue
    {
      GetValue(adapter.store, ns, key, defaultValue)
    }

    /** `set(key, value)`; `thrown` when `keys().includes` is not a function. */
    method Set(key: string, value: Value) returns (thrown: bool)
      requires indexKey == IndexKey(ns)
      modifies adapter
      ensures adapter.store == AfterSet(old(adapter.store), ns, key, value)
      ensures thrown == SetThrows(old(adapter.store), ns, key, value)
    {
      adapter.SetItem(ns + ":" + key, Stringify(value));
      var keys := Keys();
      var has := Includes(keys, key);
      if has.None? {
        return true;
      }
      if !has.value {
        adapter.SetItem(indexKey, Some(EncodeItems(Elements(keys).value + [Str(key)])));
      }
      return false;
    }

    /** `remove(key)`; `thrown` when `keys().filter` is not a function. */
    method Remove(key: string) returns (thrown: bool)
      requires indexKey == IndexKey(ns)
      modifies adapter
      ensures adapter.store == AfterRemove(old(adapter.store), ns, key)
      ensures thrown == RemoveThrows(old(adapter.store), ns, key)
    {
      adapter.RemoveItem(ns + ":" + key);
      var keys := Keys();
      if !keys.Arr? {
        return true;
      }
      adapter.SetItem(indexKey, Some(EncodeItems(Filter(keys.items, key))));
      return false;
    }

    /** `clear()`; `thrown` when `keys()` is not iterable. */
    method Clear() returns (thrown: bool)
      requires indexKey == IndexKey(ns)
      modifies adapter
      ensures adapter.store == AfterClear(old(adapter.store), ns)
      ensures thrown == ClearThrows(old(adapter.store), ns)
    {
      var elements := Elements(Keys());
      if elements.None? {
        return true;
      }
      var keys := KeyTexts(elements.value);
      for i := 0 to |keys|
        invariant RemoveAll(adapter.store, ns, keys[i..]) == RemoveAll(old(adapter.store), ns, keys)
      {
        assert keys[i..][1..] == keys[i + 1..];
        adapter.RemoveItem(ns + ":" + keys[i]);
      }
      adapter.SetItem(indexKey, Some(EncodeKeys([])));
      return false;
    }

    /** `export()`; `None` when `keys()` is not iterable and the loop throws. */
    method Export() returns (out: Option<Fields>)
      requires indexKey == IndexKey(ns)
      ensures out == ExportOf(adapter.store, ns)
    {
      var elements := Elements(Keys());
      if elements.None? {
        return None;
      }
      var keys := KeyTexts(elements.value);
      var acc := [];
      for i := 0 to |keys|
        invariant ExportFrom(adapter.store, ns, keys[i..], acc) == ExportFrom(adapter.store, ns, keys, [])
      {
        assert keys[i..][1..] == keys[i + 1..];
        acc := Put(acc, keys[i], Get(keys[i], Undefined));
      }
      return Some(acc);
    }

    /** `import(data)`; `None` is a `null` or `undefined` argument, and `thrown` a `set` that threw. */
    method Import(data: Option<Fields>) returns (thrown: bool)
      requires indexKey == IndexKey(ns)
      modifies adapter
      ensures adapter.store == AfterImport(old(adapter.store), ns, JsValue.Keys(data.GetOr([])), data.GetOr([]))
      ensures thrown == ImportThrows(old(adapter.store), ns, JsValue.Keys(data.GetOr([])), data.GetOr([]))
    {
      var entries := data.GetOr([]);
      var ks := JsValue.Keys(entries);
      thrown := false;
      var i := 0;
      while i < |ks| && !thrown
        invariant 0 <= i <= |ks|
        invariant !thrown ==>
          AfterImport(adapter.store, ns, ks[i..], entries) == AfterImport(old(adapter.store), ns, ks, entries) &&
          ImportThrows(adapter.store, ns, ks[i..], entries) == ImportThrows(old(adapter.store), ns, ks, entries)
        invariant thrown ==>
          adapter.store == AfterImport(old(adapter.store), ns, ks, entries) && ImportThrows(old(adapter.store), ns, ks, entries)
        decreases |ks| - i
      {
        assert ks[i..][1..] == ks[i + 1..];
        thrown := Set(ks[i], Lookup(entries, ks[i]));
        i := i + 1;
      }
    }
  }

  // ---- what the operations guarantee ----

  /** After construction the index is the one found, or an empty array. */
  lemma InitializedIndex(store: Storage, ns: string)
    ensures IndexValue(Initialized(store, ns), ns) == if ReadItem(store, IndexKey(ns)).None? then Arr([]) else IndexValue(store, ns)
    ensures ReadItem(store, IndexKey(ns)).None? ==> ListIndex(Initialized(store, ns), ns) && IndexOf(Initialized(store, ns), ns) == []
  {
    WrittenIndex(store, ns, []);
    DecodeEncodeKeys([]);
  }

  /** `get` right after `set` returns the value's JSON image, for every key other than `:__keys__`, whether or not `set` threw. */
  lemma GetAfterSet(store: Storage, ns: string, key: string, value: Value, defaultValue: Value)
    requires key != IndexSuffix && WellFormedValue(value)
    ensures GetValue(AfterSet(store, ns, key, value), ns, key, defaultValue) == Image(value, defaultValue)
    ensures ReadItem(AfterSet(store, ns, key, value), FullKey(ns, key)).Some? <==> !value.Undefined?
  {
    IndexKeyDistinct(ns, key);
    if !value.Undefined? {
      StringifyParse(value);
    }
  }

  /** On an index of strings, `set` does not throw, keeps the index a list of strings and appends the key once. */
  lemma SetIndex(store: Storage, ns: string, key: string, value: Value)
    requires key != IndexSuffix && ListIndex(store, ns)
    ensures !SetThrows(store, ns, key, value)
    ensures ListIndex(AfterSet(store, ns, key, value), ns)
    ensures var before := IndexOf(store, ns);
      IndexOf(AfterSet(store, ns, key, value), ns) == if key in before then before else before + [key]
  {
    IndexKeyDistinct(ns, key);
    var written := Stored(store, ns, key, value);
    assert IndexValue(written, ns) == IndexValue(store, ns);
    var before := IndexOf(store, ns);
    assert Str(key) in StrItems(before) <==> key in before;
    if key !in before {
      assert StrItems(before) + [Str(key)] == StrItems(before + [key]);
      WrittenIndex(written, ns, before + [key]);
    }
  }

  /** `set` of one key leaves every other key's stored text alone. */
  lemma SetKeepsOthers(store: Storage, ns: string, key: string, value: Value, other: string)
    requires other != key && other != IndexSuffix
    ensures ReadItem(AfterSet(store, ns, key, value), FullKey(ns, other)) == ReadItem(store, FullKey(ns, other))
  {
    FullKeyInjective(ns, key, other);
    IndexKeyDistinct(ns, other);
  }

  /**
   * On an index that is a string, `set` spreads it into its characters and
   * appends the key (unless the string contains the key), while `remove`
   * throws.
   */
  lemma StringIndexSpreads(store: Storage, ns: string, key: string, value: Value, text: string)
    requires key != IndexSuffix && IndexValue(store, ns) == Str(text) && !Contains(text, key)
    ensures !SetThrows(store, ns, key, value)
    ensures ListIndex(AfterSet(store, ns, key, value), ns) && IndexOf(AfterSet(store, ns, key, value), ns) == CharKeys(text) + [key]
    ensures RemoveThrows(store, ns, key)
  {
    IndexKeyDistinct(ns, key);
    assert IndexValue(Stored(store, ns, key, value), ns) == Str(text);
    assert StrItems(CharKeys(text)) + [Str(key)] == StrItems(CharKeys(text) + [key]);
    WrittenIndex(Stored(store, ns, key, value), ns, CharKeys(text) + [key]);
    assert IndexValue(store - {FullKey(ns, key)}, ns) == Str(text);
  }

  /**
   * On an index that is neither an array nor a string (a number, `null`,
   * a boolean or an object), `set` writes the value and throws, `remove`
   * deletes the value and throws, and `clear` and `export` throw having
   * changed nothing.
   */
  lemma ScalarIndexThrows(store: Storage, ns: string, key: string, value: Value)
    requires key != IndexSuffix && !IndexValue(store, ns).Arr? && !IndexValue(store, ns).Str?
    ensures SetThrows(store, ns, key, value) && AfterSet(store, ns, key, value) == Stored(store, ns, key, value)
    ensures RemoveThrows(store, ns, key) && AfterRemove(store, ns, key) == store - {FullKey(ns, key)}
    ensures ClearThrows(store, ns) && AfterClear(store, ns) == store
    ensures ExportOf(store, ns).None?
  {
    IndexKeyDistinct(ns, key);
    assert IndexValue(Stored(store, ns, key, value), ns) == IndexValue(store, ns);
    assert IndexValue(store - {FullKey(ns, key)}, ns) == IndexValue(store, ns);
  }

  /**
   * Setting `:__keys__` to a string overwrites the index with it. `set` then
   * reads that string back as the index: unless it contains `:__keys__` it
   * spreads it into characters and appends `:__keys__`, so a `get` of the
   * key returns that array instead of the string.
   */
  lemma SetIndexSuffix(store: Storage, ns: string, text: string)
    ensures !SetThrows(store, ns, IndexSuffix, Str(text))
    ensures GetValue(AfterSet(store, ns, IndexSuffix, Str(text)), ns, IndexSuffix, Undefined) ==
      if Contains(text, IndexSuffix) then Str(text) else Arr(StrItems(CharKeys(text) + [IndexSuffix]))
  {
    IndexKeyCollision(ns);
    var written := Stored(store, ns, IndexSuffix, Str(text));
    StringIndexIsText(text);
    assert IndexValue(written, ns) == Str(text);
    if Contains(text, IndexSuffix) {
      StringifyParse(Str(text));
    } else {
      var ks := CharKeys(text) + [IndexSuffix];
      assert StrItems(CharKeys(text)) + [Str(IndexSuffix)] == StrItems(ks);
      KeysImage(ks);
    }
  }

  lemma {:induction false} FilterStrItems(ks: seq<string>, key: string)
    ensures Filter(StrItems(ks), key) == StrItems(Without(ks, key))
  {
    if |ks| > 0 {
      assert StrItems(ks)[1..] == StrItems(ks[1..]);
      FilterStrItems(ks[1..], key);
    }
  }

  /** On an index of strings, `remove(key)` does not throw: the key is gone from the index and `has(key)` is false. */
  lemma RemoveForgets(store: Storage, ns: string, key: string)
    requires key != IndexSuffix && ListIndex(store, ns)
    ensures !RemoveThrows(store, ns, key)
    ensures ReadItem(AfterRemove(store, ns, key), FullKey(ns, key)).None?
    ensures ListIndex(AfterRemove(store, ns, key), ns) && IndexOf(AfterRemove(store, ns, key), ns) == Without(IndexOf(store, ns), key)
  {
    IndexKeyDistinct(ns, key);
    var removed := store - {FullKey(ns, key)};
    assert IndexValue(removed, ns) == IndexValue(store, ns);
    FilterStrItems(IndexOf(store, ns), key);
    WrittenIndex(removed, ns, Without(IndexOf(store, ns), key));
  }

  lemma {:induction false} RemoveAllRemoves(store: Storage, ns: string, ks: seq<string>, k: string)
    ensures k in ks ==> FullKey(ns, k) !in RemoveAll(store, ns, ks)
    ensures FullKey(ns, k) !in store ==> FullKey(ns, k) !in RemoveAll(store, ns, ks)
    decreases |ks|
  {
    if |ks| > 0 {
      RemoveAllRemoves(store - {FullKey(ns, ks[0])}, ns, ks[1..], k);
    }
  }

  /**
   * On an iterable index (an array, or a string iterated by character),
   * `clear()` does not throw: the index becomes an empty list and no value
   * named by an element remains.
   */
  lemma ClearForgets(store: Storage, ns: string, k: string)
    requires Elements(IndexValue(store, ns)).Some? && k in KeyTexts(Elements(IndexValue(store, ns)).value) && k != IndexSuffix
    ensures !ClearThrows(store, ns)
    ensures ListIndex(AfterClear(store, ns), ns) && IndexOf(AfterClear(store, ns), ns) == []
    ensures ReadItem(AfterClear(store, ns), FullKey(ns, k)).None?
  {
    var ks := KeyTexts(Elements(IndexValue(store, ns)).value);
    WrittenIndex(RemoveAll(store, ns, ks), ns, []);
    RemoveAllRemoves(store, ns, ks, k);
    IndexKeyDistinct(ns, k);
  }

  lemma {:induction false} ExportFromLookup(store: Storage, ns: string, ks: seq<string>, acc: Fields, k: string)
    ensures Lookup(ExportFrom(store, ns, ks, acc), k) == if k in ks then GetValue(store, ns, k, Undefined) else Lookup(acc, k)
    decreases |ks|
  {
    if |ks| > 0 {
      var acc' := Put(acc, ks[0], GetValue(store, ns, ks[0], Undefined));
      ExportFromLookup(store, ns, ks[1..], acc', k);
      LookupPut(acc, ks[0], GetValue(store, ns, ks[0], Undefined), k);
      assert k in ks <==> k == ks[0] || k in ks[1..];
    }
  }

  /** On an iterable index `export()` does not throw, and maps each element's text to what `get` returns for it, and has nothing else. */
  lemma ExportReadsEveryKey(store: Storage, ns: string, k: string)
    requires Elements(IndexValue(store, ns)).Some?
    ensures ExportOf(store, ns).Some?
    ensures var ks := KeyTexts(Elements(IndexValue(store, ns)).value);
      Lookup(ExportOf(store, ns).value, k) == if k in ks then GetValue(store, ns, k, Undefined) else Undefined
  {
    ExportFromLookup(store, ns, KeyTexts(Elements(IndexValue(store, ns)).value), [], k);
  }

  lemma {:induction false} ImportKeeps(store: Storage, ns: string, ks: seq<string>, data: Fields, k: string)
    requires k !in ks && k != IndexSuffix
    ensures ReadItem(AfterImport(store, ns, ks, data), FullKey(ns, k)) == ReadItem(store, FullKey(ns, k))
    decreases |ks|
  {
    if |ks| > 0 {
      SetKeepsOthers(store, ns, ks[0], Lookup(data, ks[0]), k);
      ImportKeeps(AfterSet(store, ns, ks[0], Lookup(data, ks[0])), ns, ks[1..], data, k);
    }
  }

  /** On an index of strings, an import that does not name `:__keys__` never throws and leaves the index a list of strings. */
  lemma {:induction false} ImportNeverThrows(store: Storage, ns: string, ks: seq<string>, data: Fields)
    requires ListIndex(store, ns) && IndexSuffix !in ks
    ensures !ImportThrows(store, ns, ks, data)
    ensures ListIndex(AfterImport(store, ns, ks, data), ns)
    decreases |ks|
  {
    if |ks| > 0 {
      SetIndex(store, ns, ks[0], Lookup(data, ks[0]));
      ImportNeverThrows(AfterSet(store, ns, ks[0], Lookup(data, ks[0])), ns, ks[1..], data);
    }
  }

  /**
   * After `import(data)` over an index of strings, `get(k)` returns the JSON
   * image of `data[k]` for every imported key, provided none of them is
   * `:__keys__`.
   */
  lemma {:induction false} ImportThenGet(store: Storage, ns: string, ks: seq<string>, data: Fields, k: string, defaultValue: Value)
    requires k in ks && IndexSuffix !in ks && ListIndex(store, ns) && WellFormedValue(Lookup(data, k))
    ensures GetValue(AfterImport(store, ns, ks, data), ns, k, defaultValue) == Image(Lookup(data, k), defaultValue)
    decreases |ks|
  {
    var next := AfterSet(store, ns, ks[0], Lookup(data, ks[0]));
    SetIndex(store, ns, ks[0], Lookup(data, ks[0]));
    if k in ks[1..] {
      ImportThenGet(next, ns, ks[1..], data, k, defaultValue);
    } else {
      GetAfterSet(store, ns, k, Lookup(data, k), defaultValue);
      ImportKeeps(next, ns, ks[1..], data, k);
    }
  }

  // ---- getInstance ----

  /** `namespace || 'default'`, with `undefined` defaulting to `'default'`. */
  function NamespaceKey(namespace: Option<string>): (k: string)
    ensures k != ""
    ensures namespace.Some? && namespace.value != "" ==> k == namespace.value
  {
    if namespace.None? || namespace.value == "" then "default" else namespace.value
  }

  /** The static `instances` map of `PersistentStore`. */
  class StoreRegistry {
    var instances: map<string, PersistentStore>

    constructor()
      ensures instances == map[]
    {
      instances := map[];
    }

    /** `getInstance(namespace, adapter)`: the one store of a namespace, created on first use. */
    method GetInstance(namespace: Option<string>, adapter: Option<MemoryAdapter>) returns (inst: PersistentStore)
      modifies this, if adapter.Some? then {adapter.value} else {}
      ensures NamespaceKey(namespace) in instances && inst == instances[NamespaceKey(namespace)]
      ensures NamespaceKey(namespace) in old(instances) ==> inst == old(instances)[NamespaceKey(namespace)] && instances == old(instances)
      ensures NamespaceKey(namespace) !in old(instances) ==>
        fresh(inst) && inst.ns == NamespaceKey(namespace) && inst.indexKey == IndexKey(inst.ns) &&
        instances == old(instances)[NamespaceKey(namespace) := inst]
      ensures NamespaceKey(namespace) in old(instances) && adapter.Some? ==> adapter.value.store == old(adapter.value.store)
      ensures NamespaceKey(namespace) !in old(instances) && adapter.Some? ==>
        inst.adapter == adapter.value && adapter.value.store == Initialized(old(adapter.value.store), inst.ns)
      ensures NamespaceKey(namespace) !in old(instances) && adapter.None? ==>
        fresh(inst.adapter) && inst.adapter.store == Initialized(map[], inst.ns)
    {
      var key := NamespaceKey(namespace);
      if key in instances {
        return instances[key];
      }
      var a: MemoryAdapter;
      if adapter.Some? {
        a := adapter.value;
      } else {
        a := new MemoryAdapter();
      }
      inst := new PersistentStore(key, a);
      instances := instances[key := inst];
    }
  }

  /** `getInstance()` and `getInstance('')` both name the `default` namespace. */
  lemma EmptyNamespaceIsDefault()
    ensures NamespaceKey(None) == NamespaceKey(Some("")) == NamespaceKey(Some("default")) == "default"
  {
  }
}
