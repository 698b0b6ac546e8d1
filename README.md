# Quieter web toolkit: a Dafny model of its core

This project models, in Dafny, the core logic of a TypeScript monorepo of
front-end tooling. It has four parts.

- **`@quiteer/axios`: an HTTP client wrapper.**
  - `AxiosClient` keeps a map of abort controllers keyed by request and an ordered list of plugins. Their request, response and error hooks each replace a value or keep it.
  - `request` runs a bounded retry loop with a `retryOn` test and an exponential back-off (`ExponentialBackoffStrategy`).
  - `createApi` wraps the client in the verbs `get`, `post` and so on. Its `doRequest` consults a TTL cache (`RequestCache`), fires a loading callback in an on/off pair, and normalises, encrypts and form-encodes the body. It then decrypts the response data, checks it against a contract and writes the cache.
  - `buildRequestKey` fingerprints a request as `METHOD|url|params|data`.
  - The three plugins are error tips, loading and a logger with its `DebugStore`.
  - `createClientForEnv` picks a base URL.
- **`@quiteer/vite-plugins`.**
  - The `removeConsole` plugin is a character scanner. It deletes `console.<method>(...)` calls below a severity level, skipping strings and comments.
  - `toEnvKey` and `mergeByMode` normalise and merge environment configs.
  - `bootstrapEnv` renders `.env` lines and a `.d.ts` interface.
- **`@quiteer/utils`.**
  - `PersistentStore` is a namespaced key-value store that keeps an index of its keys over a storage adapter, with `MemoryAdapter` as the in-memory adapter.
  - Object helpers: path `get`/`set`, `pick`, `omit`, `deepMerge`, `isEmpty`.
  - String case helpers and `truncate`.
  - `clamp`/`inRange`, the promise `retry` loop with `ok`/`err`, and `formatTimestamp`.
- **Smaller pieces.**
  - The permission directive's `normalizeOptions`/`hasAuth`.
  - The `git-branches` display helpers: display width, padding, Chinese relative dates and row parsing.
  - The hex and `rgb()`/`rgba()` colour validators.

There is one Dafny module per source file.

- **Functions and lemmas.** Code that only computes becomes datatypes, functions and lemmas.
- **Classes.** Code that mutates state becomes a class whose methods state their whole new state: `AxiosClient`, `RequestCache`, `Api`, `DebugStore`, `LoggerPlugin`, `MemoryAdapter`, `PersistentStore` and the store registry.
- **Loops.** Loops stay loops with invariants: the retry loops, the hook chains, the console-call scanner, `toLines`, `displayWidth`, `deepMerge`/`pick` and the store's key loops.

Several things become explicit parameters:
- the network, as an oracle answering each attempt with a response or an error;
- the clock;
- the back-off jitter;
- the toast and loading callbacks, whose calls are returned as events.

JavaScript values are modelled by a datatype `Value` of `undefined`, `null`, booleans, integers, strings, dates, arrays, ordered objects and form bodies. `JSON.stringify`/`JSON.parse` are modelled concretely, with a proved round trip.

The default `retryOn` of `request` follows the code (packages/axios/src/client.ts:96-99), not the "always retry network errors" described for it. The code retries an error when:
- it has no code;
- its code is `ECONNABORTED`;
- or its response status is 5xx.

So an error with another code, such as `ERR_NETWORK`, and no 5xx response is not retried (`Client.DefaultRetryOnCoded`).

`PersistentStore` keeps its index under `ns::__keys__`. A user key `:__keys__` therefore shares the index's storage slot. The model keeps this behaviour and states it in `PersistentStorage.IndexKeyCollision` and `PersistentStorage.SetIndexSuffix`.

`keys()` returns whatever `JSON.parse` builds from the index, unchecked. The model keeps that value (`PersistentStorage.KeysValue`) and runs `includes`, `filter` and the `for … of` loops on it as JavaScript would: a string index is iterated by character and searched by substring, and an index that is a number, `null`, a boolean or an object makes `set`, `remove`, `clear` and `export` throw. Each method returns whether it threw, after whatever it had already written.

## Model

| member | source | states |
|---|---|---|
| StringUtils.Capitalize | packages/utils/src/string.ts:5-9 | the empty string stays empty; otherwise the result has the same length, its first character upper-cased and the rest unchanged |
| StringUtils.CollapseSpace | packages/utils/src/string.ts:18 | replacing each whitespace run by the separator leaves no whitespace, never lengthens the text and adds no upper-case letter |
| StringUtils.KebabCase | packages/utils/src/string.ts:15-20 | the kebab-case result holds no upper-case letter and no whitespace |
| StringUtils.SnakeCase | packages/utils/src/string.ts:26-31 | the snake_case result holds no upper-case letter and no whitespace |
| StringUtils.BoundaryGetsSeparator | packages/utils/src/string.ts:17 | a lower-case letter or digit followed by an upper-case letter gets the separator between them |
| StringUtils.WhitespaceRunBecomesOne | packages/utils/src/string.ts:18 | a whole run of whitespace becomes exactly one separator |
| StringUtils.CaseConvertIdempotent | packages/utils/src/string.ts:15-31 | converting a converted string again changes nothing |
| StringUtils.KebabIdempotent | packages/utils/src/string.ts:15-20 | `kebabCase(kebabCase(s)) == kebabCase(s)` |
| StringUtils.SnakeIdempotent | packages/utils/src/string.ts:26-31 | `snakeCase(snakeCase(s)) == snakeCase(s)` |
| StringUtils.Truncate | packages/utils/src/string.ts:45-49 | a string that fits comes back unchanged; a longer one ends with the suffix, preceded by its first `max(0, maxLength - suffix length)` characters, and is exactly `maxLength` long when the suffix fits, or is the suffix alone when it does not |
| NumberUtils.Clamp | packages/utils/src/number.ts:13-15 | with `min <= max` the result lies in `[min, max]`; a value inside comes back unchanged; below gives `min`, above gives `max`; with `min > max` the result is `max` |
| NumberUtils.ClampIdempotent | packages/utils/src/number.ts:13-15 | clamping twice is clamping once |
| NumberUtils.InRange | packages/utils/src/number.ts:21-25 | true exactly when `n` lies in the half-open interval from the smaller bound to the larger one |
| NumberUtils.InRangeSymmetric | packages/utils/src/number.ts:21-25 | swapping the bounds gives the same answer, and equal bounds admit nothing |
| NumberUtils.InRangeClamped | packages/utils/src/number.ts:13-25 | a value in range is a fixed point of clamping to that range |
| PromiseUtils.Retry | packages/utils/src/promise.ts:33-46 | at most `times` calls; every call before the last was rejected; a fulfilment carries the value of the last call; a rejection comes after exactly `max(times, 0)` failed calls and carries the last error, or `undefined` when there was no call; one sleep of `delayMs` between two consecutive failed calls and none after the last |
| PromiseUtils.RetryWithDefaults | packages/utils/src/promise.ts:32-46 | an omitted `times` is 3 and an omitted `delayMs` is 300: without `times` there are at most three calls and two sleeps, and a rejection follows three failures with the third call's error; every sleep is the given or default delay |
| PromiseUtils.MakeOk | packages/utils/src/promise.ts:58-60 | an `ok` result carrying the value |
| PromiseUtils.MakeErr | packages/utils/src/promise.ts:66-68 | a failed result carrying the error |
| TimeUtils.Pad | packages/utils/src/time.ts:6 | a one-digit number gets a leading `0`; other numbers are their decimal text |
| TimeUtils.PadTwoDigits | packages/utils/src/time.ts:6 | for 0..99 the padded text is two digits whose value is the number |
| TimeUtils.FormatLayout | packages/utils/src/time.ts:5-14 | for a four-digit year the text is 19 characters, with `-`, `-`, space, `:` and `:` at their fixed places and each field at its fixed position |
| TimeUtils.FormatReadsBack | packages/utils/src/time.ts:5-14 | reading the digits back at those positions gives the year, the month index plus one, the day, the hours, the minutes and the seconds |
| Permission.CodesOf | packages/directives/src/permission.ts:50-54 | a string value gives that code, a list gives that list, a missing value gives the empty list; an options object gives its `codes`, or the empty list when they are absent or the empty string (`codes || []`) |
| Permission.NormalizeOptions | packages/directives/src/permission.ts:45-68 | the codes come from the value; `.all` wins over `.any`, which wins over the value's mode, which defaults to `any`; `.remove` wins over `.hide` over `.disable` over the argument over the value's effect, which defaults to `hide` |
| Permission.HasAuth | packages/directives/src/permission.ts:76-85 | no injected set authorises nothing; an empty code list is authorised; `any` holds exactly when some code is granted and `all` exactly when every code is |
| Permission.HasAuthMonotone | packages/directives/src/permission.ts:76-85 | granting more codes never withdraws an authorisation |
| Permission.AllImpliesAny | packages/directives/src/permission.ts:82-84 | what `all` authorises, `any` authorises too |
| Permission.React | packages/directives/src/permission.ts:133-148 | the element is restored exactly when the normalised codes are authorised, and otherwise gets the normalised effect |
| Permission.NoSetNoAccess | packages/directives/src/permission.ts:77-78 | without an injected set every bound element gets its effect, even one bound to no codes |
| Color.IsHexColor | packages/is/src/color.ts:4-6 | only strings are accepted, and only of length 4 or 7 |
| Color.HexColorIff | packages/is/src/color.ts:5 | `#` followed by text is accepted exactly when that text is three or six hex digits |
| Color.HexColorIgnoresCase | packages/is/src/color.ts:5 | upper- or lower-casing the text does not change the answer |
| Color.ParseIntOfNat | packages/is/src/color.ts:14 | `parseInt` of the decimal text of a number gives that number back |
| Color.IsValidRgbChannel | packages/is/src/color.ts:8-17 | a text ending in `%` is judged as a percentage; any other is valid exactly when its leading integer is in 0..255 |
| Color.IsRgbColor | packages/is/src/color.ts:20-37 | accepted exactly for a string of the shape `rgb(...)` with three comma-separated parts, each a valid channel (both directions) |
| Color.IsRgbaColor | packages/is/src/color.ts:45-64 | accepted exactly for a string of the shape `rgba(...)` with four parts, the first three valid channels and the fourth a valid alpha (both directions) |
| Color.ChannelOfNat | packages/is/src/color.ts:14-15 | the decimal text of a number is a valid channel exactly when the number is at most 255 |
| Color.RgbTextParts | packages/is/src/color.ts:30-31 | the text between the parentheses of `rgb(r,g,b)` splits back into the three numbers |
| Color.RgbAccepted | packages/is/src/color.ts:20-37 | every `rgb(r,g,b)` with channels in 0..255 is accepted |
| Color.RgbRejectsLargeChannel | packages/is/src/color.ts:20-37 | a channel above 255 makes `rgb(r,g,b)` rejected |
| ObjectUtils.IsEmptyCases | packages/utils/src/object.ts:24-34 | `null` and `undefined` are empty; a string is empty exactly when it is all whitespace, an array when it has no items, a plain object when it has no own keys; booleans, numbers, dates and form bodies never are |
| ObjectUtils.AsSource | packages/utils/src/object.ts:59-60 | an object contributes its own properties in order, an array its items and a string its characters under their decimal indexes, and anything else nothing |
| ObjectUtils.SpreadItems | packages/utils/src/object.ts:64 | spreading an array gives its items; an object, number, boolean, date or nullish value is not iterable and throws |
| ObjectUtils.MergeValue | packages/utils/src/object.ts:60-65 | a scalar source value replaces what was there; an array is appended to the held array, or stands alone when nothing truthy was held, and throws onto a truthy non-iterable; a plain object merges into an object; the nesting depth never grows |
| ObjectUtils.MergeFields | packages/utils/src/object.ts:59-66 | merging one source's properties in order never deepens the result beyond its inputs |
| ObjectUtils.DeepMergeThrown | packages/utils/src/object.ts:56-69 | once a prefix of the sources throws, the whole merge throws |
| ObjectUtils.DeepMerge | packages/utils/src/object.ts:56-69 | the loop over sources and keys computes the merge of all sources from an empty result, or the `TypeError` |
| ObjectUtils.MergeFieldsKeys | packages/utils/src/object.ts:58-66 | after merging a source the result holds exactly its earlier keys and those of the source |
| ObjectUtils.MergeFieldsUntouched | packages/utils/src/object.ts:58-66 | a key the source lacks keeps its earlier value |
| ObjectUtils.MergeFieldsAt | packages/utils/src/object.ts:58-66 | a key of the source ends up holding the merge of its earlier value with the source's value |
| ObjectUtils.MergeScalarWins | packages/utils/src/object.ts:65 | a later scalar replaces whatever the key held |
| ObjectUtils.MergeArraysConcatenate | packages/utils/src/object.ts:63-64 | a later array is appended to the array the key held |
| ObjectUtils.MergeObjectsRecursively | packages/utils/src/object.ts:61-62 | a later plain object merged onto an object gives an object holding the keys of both |
| ObjectUtils.MergeArrayOntoObjectThrows | packages/utils/src/object.ts:63-64 | a later array meeting an object, a date or a non-zero number under the same key throws |
| ObjectUtils.Pick | packages/utils/src/object.ts:75-82 | the result has exactly the listed keys the object has, each with the object's value, and no key twice |
| ObjectUtils.Omit | packages/utils/src/object.ts:88-92 | the result has exactly the object's keys that are not listed, each with its value, and only properties of the object |
| ObjectUtils.IndexAtShape | packages/utils/src/object.ts:99 | what the index rewrite matches is `[`, one or more digits and `]` |
| ObjectUtils.Tokens | packages/utils/src/object.ts:99 | no path token is empty or holds a `.` |
| ObjectUtils.IndexReadsAsDottedKey | packages/utils/src/object.ts:99 | `x[d]y` rewrites and tokenises exactly like `x.dy` for a run of digits `d` |
| ObjectUtils.Get | packages/utils/src/object.ts:98-107 | the loop returns the value reached along the tokens, or the default when a nullish value is met before the end or the value reached is nullish |
| ObjectUtils.ReachAppend | packages/utils/src/object.ts:101-105 | walking a path in two parts is walking the first part, then the second from where it ends |
| ObjectUtils.GetThroughNullish | packages/utils/src/object.ts:102-103 | a nullish value part way along the path gives the default |
| ObjectUtils.ArraySet | packages/utils/src/object.ts:119 | writing index `n` grows the array to `n + 1` when needed, sets item `n`, keeps every other item and fills the gap with `undefined` |
| ObjectUtils.Assign | packages/utils/src/object.ts:119 | writing onto a nullish or primitive value throws; an object is always written and an array exactly at an index key; the written property then reads as the value and the kind of container is kept |
| ObjectUtils.AssignObjectOthers | packages/utils/src/object.ts:119 | writing one property of an object leaves every other property, and whether it exists, as it was |
| ObjectUtils.Fresh | packages/utils/src/object.ts:122-123 | a missing step becomes an array exactly when the next token is one `Number` reads as a whole number (blank, a hexadecimal, octal or binary literal, or a signed decimal literal with optional fraction and exponent whose exact value is whole), an object otherwise |
| ObjectUtils.SetPath | packages/utils/src/object.ts:113-128 | walking from a nullish value throws |
| ObjectUtils.SetPathStep | packages/utils/src/object.ts:116-126 | a successful write replaced the first token's property by the value, or by the child written along the rest of the path |
| ObjectUtils.SetPathKeepsKind | packages/utils/src/object.ts:113-128 | a successful write keeps the root an object, or an array, as it was |
| ObjectUtils.SetThenReach | packages/utils/src/object.ts:98-128 | after a successful `set`, walking the same tokens reaches the value written |
| ObjectUtils.SetThenGet | packages/utils/src/object.ts:98-128 | `get(set(obj, path, v), path, d)` is `v ?? d` whenever the write succeeds |
| ObjectUtils.SetPathOthers | packages/utils/src/object.ts:113-128 | writing along a path into an object leaves every property but the path's first one as it was |
| ObjectUtils.SetPathCreates | packages/utils/src/object.ts:122-123 | a missing first step is created as an array exactly when the token after it is an integer |
| ObjectUtils.ExponentToken | packages/utils/src/object.ts:123 | `1e3` counts as an integer token, so the missing step becomes an array |
| ObjectUtils.RadixToken | packages/utils/src/object.ts:123 | `0x10` counts as an integer token |
| ObjectUtils.ZeroFractionToken | packages/utils/src/object.ts:123 | `1.0` counts as an integer token |
| ObjectUtils.FractionToken | packages/utils/src/object.ts:123 | `1.5` does not count as an integer token, so the missing step becomes an object |
| ObjectUtils.NegativeExponentToken | packages/utils/src/object.ts:123 | `15e-1` (1.5) is not an integer token while `150e-1` (15) is |
| ObjectUtils.SetPathPrimitiveThrows | packages/utils/src/object.ts:113-128 | a path into a string, number or boolean always throws |
| PersistentStorage.MemoryAdapter.constructor | packages/utils/src/classes/persistent-store.ts:7-8 | a new adapter stores nothing |
| PersistentStorage.MemoryAdapter.GetItem | packages/utils/src/classes/persistent-store.ts:11-13 | a key never stored reads as `null` |
| PersistentStorage.MemoryAdapter.SetItem | packages/utils/src/classes/persistent-store.ts:16-18 | the map afterwards is the old one with the key bound to the text |
| PersistentStorage.MemoryAdapter.RemoveItem | packages/utils/src/classes/persistent-store.ts:21-23 | the map afterwards is the old one without the key |
| PersistentStorage.IndexKeyDistinct | packages/utils/src/classes/persistent-store.ts:110-135 | the full key of any key other than `:__keys__` differs from the index key |
| PersistentStorage.FullKeyInjective | packages/utils/src/classes/persistent-store.ts:135 | distinct keys are stored under distinct full keys |
| PersistentStorage.IndexKeyCollision | packages/utils/src/classes/persistent-store.ts:110-135 | the key `:__keys__` is stored under the index key itself |
| PersistentStorage.KeysImage | packages/utils/src/classes/persistent-store.ts:139 | `JSON.parse(JSON.stringify(keys))` builds the array of keys again |
| PersistentStorage.KeysValue | packages/utils/src/classes/persistent-store.ts:205-213 | a missing or empty index, or text that is not JSON, reads as `[]`; otherwise `keys()` returns the parsed value as it is, never `undefined` |
| PersistentStorage.CharKeys | packages/utils/src/classes/persistent-store.ts:137-138 | iterating a string yields one key per character, in order |
| PersistentStorage.Includes | packages/utils/src/classes/persistent-store.ts:138 | `keys.includes(key)` is defined exactly for an array or a string; for any other index the call throws |
| PersistentStorage.Elements | packages/utils/src/classes/persistent-store.ts:139 | the spread and `for … of` loops work exactly on an array or a string; for any other index they throw |
| PersistentStorage.KeyTexts | packages/utils/src/classes/persistent-store.ts:222 | each element is used as the key text `${k}` |
| PersistentStorage.Filter | packages/utils/src/classes/persistent-store.ts:196 | the filtered index holds exactly the elements other than the string `key`, and not that string |
| PersistentStorage.KeysOf | packages/utils/src/classes/persistent-store.ts:205-213 | an index that is an array of strings is exactly the array of the keys returned |
| PersistentStorage.KeysOfStrItems | packages/utils/src/classes/persistent-store.ts:205-213 | an array of key strings is an index of strings whose keys are those strings |
| PersistentStorage.WrittenIndex | packages/utils/src/classes/persistent-store.ts:139 | writing a JSON list of keys to the index makes the index exactly that list |
| PersistentStorage.StrItemsJson | packages/utils/src/classes/persistent-store.ts:139 | a list of key strings survives conversion to JSON and back |
| PersistentStorage.DecodeEncodeKeys | packages/utils/src/classes/persistent-store.ts:205-213 | writing an index and reading it back with `keys()` gives the same array of keys |
| PersistentStorage.GetValue | packages/utils/src/classes/persistent-store.ts:159-170 | a missing item, or one that is not JSON, reads as the default |
| PersistentStorage.Without | packages/utils/src/classes/persistent-store.ts:196 | the filtered index holds exactly the other keys, and not the removed one |
| PersistentStorage.PersistentStore.constructor | packages/utils/src/classes/persistent-store.ts:107-113 | remembers the namespace and index key; an empty index is written only when none is stored |
| PersistentStorage.PersistentStore.Keys | packages/utils/src/classes/persistent-store.ts:205-213 | a missing index reads as `[]`; an index of strings reads as the array of its keys |
| PersistentStorage.PersistentStore.Has | packages/utils/src/classes/persistent-store.ts:178-181 | `has(key)` is true exactly when an item is stored under the full key |
| PersistentStorage.PersistentStore.Get | packages/utils/src/classes/persistent-store.ts:159-170 | a key that `has` says is absent reads as the default |
| PersistentStorage.PersistentStore.Set | packages/utils/src/classes/persistent-store.ts:134-140 | the storage afterwards holds the value's JSON under its full key, and the index read back spread out with the key appended when it does not include it; it throws exactly when that index has no `includes` |
| PersistentStorage.PersistentStore.Remove | packages/utils/src/classes/persistent-store.ts:193-198 | the storage afterwards lacks the value, and an array index is rewritten without the key; it throws exactly when the index is not an array |
| PersistentStorage.PersistentStore.Clear | packages/utils/src/classes/persistent-store.ts:221-224 | the loop deletes the value of every element of the index, then an empty index is written; for an index that is not iterable it throws and changes nothing |
| PersistentStorage.PersistentStore.Export | packages/utils/src/classes/persistent-store.ts:233-237 | the loop builds the record of every element's key text with what `get` returns for it; it is `None` (throws) when the index is not iterable |
| PersistentStorage.PersistentStore.Import | packages/utils/src/classes/persistent-store.ts:246-248 | the storage afterwards is that of `set(k, data[k])` for each own key in turn, stopping after the first `set` that throws, and unchanged for a nullish argument; it throws exactly when one of those `set`s does |
| PersistentStorage.InitializedIndex | packages/utils/src/classes/persistent-store.ts:111-112 | after construction the index is the one found, or empty when there was none |
| PersistentStorage.GetAfterSet | packages/utils/src/classes/persistent-store.ts:134-170 | `get` right after `set` returns the value's JSON image, and the item is present exactly when the value is not `undefined`, for every key other than `:__keys__` |
| PersistentStorage.SetIndex | packages/utils/src/classes/persistent-store.ts:137-139 | on an index of strings `set` does not throw, keeps it an index of strings, appends the key once and leaves an index that already has it alone |
| PersistentStorage.SetKeepsOthers | packages/utils/src/classes/persistent-store.ts:134-140 | `set` of one key leaves every other key's stored text alone |
| PersistentStorage.StringIndexIsText | packages/utils/src/classes/persistent-store.ts:205-213 | a string stored where the index belongs is read by `keys()` as that string |
| PersistentStorage.NullIndexIsNull | packages/utils/src/classes/persistent-store.ts:205-213 | the text `null` stored where the index belongs is read by `keys()` as `null`, not as `[]` |
| PersistentStorage.StringIndexSpreads | packages/utils/src/classes/persistent-store.ts:134-198 | on a string index not containing the key, `set` spreads it into its characters and appends the key, and `remove` throws |
| PersistentStorage.ScalarIndexThrows | packages/utils/src/classes/persistent-store.ts:134-237 | on an index that is neither an array nor a string, `set` writes the value then throws, `remove` deletes the value then throws, and `clear` and `export` throw having changed nothing |
| PersistentStorage.SetIndexSuffix | packages/utils/src/classes/persistent-store.ts:134-170 | setting `:__keys__` to a string overwrites the index with it; the `get` then returns that string only if it contains `:__keys__`, and otherwise the array of its characters followed by `:__keys__` |
| PersistentStorage.FilterStrItems | packages/utils/src/classes/persistent-store.ts:196 | filtering an index of strings is removing the key from the list |
| PersistentStorage.RemoveForgets | packages/utils/src/classes/persistent-store.ts:193-198 | on an index of strings `remove(key)` does not throw, nothing is stored for the key afterwards and the index is the old one without it |
| PersistentStorage.RemoveAllRemoves | packages/utils/src/classes/persistent-store.ts:222 | deleting a list of keys leaves none of them, and does not bring back a missing one |
| PersistentStorage.ClearForgets | packages/utils/src/classes/persistent-store.ts:221-224 | on an iterable index `clear()` does not throw, the index becomes empty and no value named by an element remains |
| PersistentStorage.ExportFromLookup | packages/utils/src/classes/persistent-store.ts:234-235 | each key read by the export loop maps to what `get` returns for it; other keys keep what they had |
| PersistentStorage.ExportReadsEveryKey | packages/utils/src/classes/persistent-store.ts:233-237 | on an iterable index `export()` does not throw, maps each element's key text to what `get` returns for it, and has nothing else |
| PersistentStorage.ImportKeeps | packages/utils/src/classes/persistent-store.ts:246-248 | a key not imported keeps its stored text |
| PersistentStorage.ImportNeverThrows | packages/utils/src/classes/persistent-store.ts:246-248 | on an index of strings an import not naming `:__keys__` never throws and leaves an index of strings |
| PersistentStorage.ImportThenGet | packages/utils/src/classes/persistent-store.ts:246-248 | over an index of strings and with no imported key `:__keys__`, `get(k)` after `import(data)` returns the JSON image of `data[k]` for every imported key |
| PersistentStorage.NamespaceKey | packages/utils/src/classes/persistent-store.ts:88-89 | the namespace is never empty, and a non-empty one is kept |
| PersistentStorage.StoreRegistry.constructor | packages/utils/src/classes/persistent-store.ts:63 | no store is registered at first |
| PersistentStorage.StoreRegistry.GetInstance | packages/utils/src/classes/persistent-store.ts:88-96 | the registered store of the namespace is returned unchanged, and a given adapter is left untouched; otherwise a fresh store is created on the given adapter (or a fresh memory adapter), which gains an empty index if it had none, and is registered |
| PersistentStorage.EmptyNamespaceIsDefault | packages/utils/src/classes/persistent-store.ts:88-89 | no namespace and the empty namespace both name `default` |
| GitBranches.CharWidth | scripts/src/commands/git-branches.ts:115-126 | a code point is two columns wide exactly when it falls in one of the full-width ranges, and one column otherwise |
| GitBranches.DisplayWidth | scripts/src/commands/git-branches.ts:112-129 | the loop returns the sum of the widths of the code points |
| GitBranches.WidthBounds | scripts/src/commands/git-branches.ts:112-129 | a text is at least as wide as its number of code points and at most twice that |
| GitBranches.WidthAppend | scripts/src/commands/git-branches.ts:112-129 | the width of a concatenation is the sum of the widths |
| GitBranches.WidthSpaces | scripts/src/commands/git-branches.ts:141 | `n` spaces are `n` columns wide |
| GitBranches.PadEndDisplay | scripts/src/commands/git-branches.ts:137-142 | padding never shortens the text |
| GitBranches.PadEndDisplayWidth | scripts/src/commands/git-branches.ts:137-142 | a text already as wide as the target comes back as it is; otherwise only spaces are appended, up to a width of exactly the target |
| GitBranches.PadEndDisplayIdempotent | scripts/src/commands/git-branches.ts:137-142 | padding twice changes nothing more |
| GitBranches.ParseAgo | scripts/src/commands/git-branches.ts:65-84 | a recognised `N unit ago` has a non-empty digit count and a non-empty word |
| GitBranches.AgoTextParses | scripts/src/commands/git-branches.ts:65-84 | every text made of digits, white space, a word without white space, white space and `ago` is recognised, with its count and word |
| GitBranches.ParseAgoSound | scripts/src/commands/git-branches.ts:65-84 | every recognised text is made of exactly those pieces |
| GitBranches.ParseAgoCount | scripts/src/commands/git-branches.ts:65 | a recognised text starts with its count, a non-empty run of digits |
| GitBranches.FindUnit | scripts/src/commands/git-branches.ts:65-84 | the unit found is the first one, in the order of the source's tests, that the word names in singular or plural; none is found when no unit is named |
| GitBranches.FindUnitOf | scripts/src/commands/git-branches.ts:65-84 | each unit name and its plural select that unit |
| GitBranches.ZhRelativeAgo | scripts/src/commands/git-branches.ts:61-84 | `N unit(s) ago`, in any case and with surrounding white space, becomes `N` and the Chinese unit |
| GitBranches.AboutAgoOf | scripts/src/commands/git-branches.ts:90-103 | `about`, white space and a well-formed tail is not a plain `N unit ago`, and its tail is read as one |
| GitBranches.ZhRelativeAbout | scripts/src/commands/git-branches.ts:90-103 | `about N unit(s) ago` becomes `N` and the Chinese unit for hours, minutes, days, months and years |
| GitBranches.ZhRelativeAboutKept | scripts/src/commands/git-branches.ts:90-104 | `about N weeks ago` and `about N seconds ago` come back untranslated |
| GitBranches.ZhRelativeDays | scripts/src/commands/git-branches.ts:85-88 | `yesterday` and `today`, in any case and with surrounding white space, become their Chinese words |
| GitBranches.ZhRelativeFallback | scripts/src/commands/git-branches.ts:104 | a text that is changed was recognised by one of the patterns; any other comes back as it was given, not lower-cased or trimmed |
| GitBranches.LastSlash | scripts/src/commands/git-branches.ts:147 | the slash found is the last one with at least one character before it on the line, or there is none |
| GitBranches.StripRemote | scripts/src/commands/git-branches.ts:147 | the name is the reference itself or the part after a `/`, and holds no further `/` after its first character on its first line |
| GitBranches.StripRemoteOfPath | scripts/src/commands/git-branches.ts:147 | `remote/branch` is listed as `branch` |
| GitBranches.ParseRowFields | scripts/src/commands/git-branches.ts:146-152 | the name is the first field without its remote, the date the second translated, the hash at most the first seven characters of the third, the subject the fourth; a missing field reads as empty |
| GitBranches.RowsOf | scripts/src/commands/git-branches.ts:144-154 | there are never more rows than lines |
| GitBranches.RowsOfListed | scripts/src/commands/git-branches.ts:154 | every row has a name, and the name is not `HEAD` |
| GitBranches.RowsOfAppend | scripts/src/commands/git-branches.ts:144-155 | rows keep the order of the lines: the rows of a concatenation are the concatenation of the rows |
| GitBranches.RowsOfOne | scripts/src/commands/git-branches.ts:144-154 | a single line yields its row exactly when it is non-empty and its row is listed |
| GitBranches.RowFromLine | scripts/src/commands/git-branches.ts:144-154 | every row is the row of one of the shown lines |
| RemoveConsole.MethodsToStrip | packages/vite-plugins/src/remove-console.ts:53-61 | a non-empty custom list is the set of its methods; without one, `off` strips nothing |
| RemoveConsole.StripsBelowLevel | packages/vite-plugins/src/remove-console.ts:22-29 | without a custom list, a level other than `off` strips exactly the methods whose severity is below the level's |
| RemoveConsole.DefaultLevelStrips | packages/vite-plugins/src/remove-console.ts:22-29 | the level `warn` strips exactly `trace`, `debug`, `log` and `info` |
| RemoveConsole.ShouldProcess | packages/vite-plugins/src/remove-console.ts:35-47 | an exclude match rejects the file; an accepted file matches a non-empty include list; an accepted `.vue` file needs `processVue`; any other accepted file has a script extension; conversely, a file that no exclude matches, that the include list admits, and that is a `.vue` file with `processVue` or a script file, is processed |
| RemoveConsole.TypeScriptProcessed | packages/vite-plugins/src/remove-console.ts:35-47 | with no include or exclude lists a `.ts` file is processed |
| RemoveConsole.LettersEnd | packages/vite-plugins/src/remove-console.ts:134-137 | the method name is the longest run of ASCII letters from its start |
| RemoveConsole.SpacesEnd | packages/vite-plugins/src/remove-console.ts:145 | only whitespace is skipped before the `(` |
| RemoveConsole.TrailEnd | packages/vite-plugins/src/remove-console.ts:212 | only whitespace and semicolons are skipped after the call |
| RemoveConsole.MatchEnd | packages/vite-plugins/src/remove-console.ts:153-210 | the corrected matcher of the Findings, which skips comments: the end it finds lies after where matching starts and at most one past the text |
| RemoveConsole.MatchEndAsWritten | packages/vite-plugins/src/remove-console.ts:153-210 | the matcher as written, where characters inside a comment reach the parenthesis count: the end it finds lies after where matching starts and at most one past the text |
| RemoveConsole.CallEnd | packages/vite-plugins/src/remove-console.ts:130-151 | a call is found at `i` exactly when `console.` starts there, followed by a method name in the set and, after optional whitespace, `(`; it then ends after the closing parenthesis the matcher as written finds and the blanks and semicolons after it |
| RemoveConsole.Step | packages/vite-plugins/src/remove-console.ts:74-220 | each move of the scanner advances, and writes no more characters than it passes over |
| RemoveConsole.Scan | packages/vite-plugins/src/remove-console.ts:74-221 | from any position the scanner writes no more characters than remain |
| RemoveConsole.Strip | packages/vite-plugins/src/remove-console.ts:67-223 | the stripped text is never longer than the input; `ScanSkipsCall` and `StripRemovesCall` state that a matched call is deleted |
| RemoveConsole.ReadMethodName | packages/vite-plugins/src/remove-console.ts:132-137 | the loop reads the run of ASCII letters and stops where it ends |
| RemoveConsole.SkipSpaces | packages/vite-plugins/src/remove-console.ts:145 | the loop stops at the end of the whitespace |
| RemoveConsole.SkipTrailing | packages/vite-plugins/src/remove-console.ts:212 | the loop stops at the end of the blanks and semicolons |
| RemoveConsole.ScanSkipsCall | packages/vite-plugins/src/remove-console.ts:130-216 | a call of a listed method met in code is deleted: the scanner writes nothing for it and goes on at `CallEnd` |
| RemoveConsole.StripRemovesCall | packages/vite-plugins/src/remove-console.ts:130-216 | in `console.log(1);` followed by more code, the call and its semicolon produce no output and the scan goes on at the next character |
| RemoveConsole.FindCallEnd | packages/vite-plugins/src/remove-console.ts:153-210 | the parenthesis-matching loop, comment branches falling through to the parenthesis test, ends where the matcher as written says the call ends |
| RemoveConsole.MatchCall | packages/vite-plugins/src/remove-console.ts:130-215 | the `console.` branch skips exactly to where the call ends, or keeps the character when no call to strip starts there |
| RemoveConsole.StripConsoleCalls | packages/vite-plugins/src/remove-console.ts:67-223 | the loop writes exactly what the scanner writes from the start of the text in code mode |
| RemoveConsole.StepShape | packages/vite-plugins/src/remove-console.ts:74-220 | a move passes over one or two characters writing them, or skips a call writing nothing |
| RemoveConsole.StepSubsequence | packages/vite-plugins/src/remove-console.ts:74-220 | one move writes only characters it passes over, in order |
| RemoveConsole.ScanSubsequence | packages/vite-plugins/src/remove-console.ts:74-221 | from any position and mode the scanner only deletes characters |
| RemoveConsole.StripSubsequence | packages/vite-plugins/src/remove-console.ts:67-223 | the output is the input with characters deleted, and never longer |
| RemoveConsole.StepCopies | packages/vite-plugins/src/remove-console.ts:74-220 | where no call to strip starts, one move writes exactly what it passes over |
| RemoveConsole.ScanCopies | packages/vite-plugins/src/remove-console.ts:74-221 | with no call to strip ahead, the scanner copies its input, whatever the mode |
| RemoveConsole.StripNothing | packages/vite-plugins/src/remove-console.ts:67-223 | with no methods to strip the text comes back unchanged |
| RemoveConsole.StripWithoutConsole | packages/vite-plugins/src/remove-console.ts:130 | text in which `console.` never occurs comes back unchanged |
| RemoveConsole.LineCommentVerbatim | packages/vite-plugins/src/remove-console.ts:79-84 | a line comment is copied verbatim up to its newline |
| RemoveConsole.BlockCommentVerbatim | packages/vite-plugins/src/remove-console.ts:86-91 | a block comment is copied verbatim up to its closing `*/` |
| RemoveConsole.StringVerbatim | packages/vite-plugins/src/remove-console.ts:107-126 | the body of a string literal is copied verbatim, `console.` calls included |
| RemoveConsole.MatchEndSkipsBlockComment | packages/vite-plugins/src/remove-console.ts:164-176 | inside a block comment the corrected matcher ignores every character, parentheses included |
| RemoveConsole.MatchEndSkipsLineComment | packages/vite-plugins/src/remove-console.ts:161-172 | inside a line comment the corrected matcher ignores every character up to the newline |
| RemoveConsole.CommentParenAsWritten | packages/vite-plugins/src/remove-console.ts:179-208 | in `console.log(1 /* ) */)` the loop as written stops at the `)` inside the comment and leaves `*/)` behind |
| RemoveConsole.StripLeavesCommentTail | packages/vite-plugins/src/remove-console.ts:153-214 | the whole pass turns `console.log(1 /* ) */)` into `*/)` |
| RemoveConsole.CommentCallEnd | packages/vite-plugins/src/remove-console.ts:130-214 | in `console.log(1 /* ) */)` the call as written ends before the comment closes, at the `*` |
| RemoveConsole.CommentTailCopied | packages/vite-plugins/src/remove-console.ts:74-221 | the scanner then copies the remaining `*/)` |
| RemoveConsole.CommentParenCorrected | packages/vite-plugins/src/remove-console.ts:158-210 | in the same text the corrected matcher reaches the real `)` and the whole call is removed |
| RemoveConsole.CommentParenClosesCall | packages/vite-plugins/src/remove-console.ts:158-210 | both of the above, side by side |
| RemoveConsole.RemoveConsolePlugin | packages/vite-plugins/src/remove-console.ts:255-266 | by default the level is `warn`, so `trace`, `debug`, `log` and `info` are stripped; both phases and `.vue` processing default to on |
| RemoveConsole.Applies | packages/vite-plugins/src/remove-console.ts:275 | the plugin applies to the dev server exactly when `stripInDev` is set and to a build exactly when `stripInBuild` is |
| RemoveConsole.Transform | packages/vite-plugins/src/remove-console.ts:281-289 | a rewrite happens only for a processed file and only when the text changed; for a script file it is the stripped text, and the file is left to Vite exactly when stripping changes nothing |
| RemoveConsole.NothingToStripKeepsFiles | packages/vite-plugins/src/remove-console.ts:281-289 | a plugin that strips nothing leaves every script file to Vite |
| EnvShared.CamelBreakOnlyInserts | packages/vite-plugins/src/env-shared.ts:9 | breaking camel case only inserts underscores |
| EnvShared.CamelBreakKeepsAlnums | packages/vite-plugins/src/env-shared.ts:9 | breaking camel case keeps every letter and digit, in order |
| EnvShared.CollapseRuns | packages/vite-plugins/src/env-shared.ts:10 | each run of other characters becomes one `_`: only letters, digits and `_` remain, a leading letter or digit stays first, and no `__` is left |
| EnvShared.CollapseRunsKeepsAlnums | packages/vite-plugins/src/env-shared.ts:10 | collapsing keeps every letter and digit, in order |
| EnvShared.SquashWithoutDoubles | packages/vite-plugins/src/env-shared.ts:11 | squashing `_+` changes nothing on a text without `__` |
| EnvShared.TrimStartUnderscores | packages/vite-plugins/src/env-shared.ts:12 | only leading underscores are removed, and all of them |
| EnvShared.TrimEndUnderscores | packages/vite-plugins/src/env-shared.ts:12 | only trailing underscores are removed, and all of them |
| EnvShared.TrimUnderscores | packages/vite-plugins/src/env-shared.ts:12 | the result is a slice of the text that neither starts nor ends with `_` |
| EnvShared.TrimKeepsAlnums | packages/vite-plugins/src/env-shared.ts:12 | trimming removes only underscores |
| EnvShared.UpperKeepsShape | packages/vite-plugins/src/env-shared.ts:13 | upper-casing keeps the shape of a key: letters, digits and single inner underscores |
| EnvShared.NormalizeKey | packages/vite-plugins/src/env-shared.ts:8-13 | the normalised key holds only upper-case letters, digits and `_`, does not start or end with `_`, and has no `__` |
| EnvShared.NormalizeKeepsAlnums | packages/vite-plugins/src/env-shared.ts:8-13 | the normalised key keeps exactly the key's ASCII letters and digits, in order, upper-cased |
| EnvShared.ToEnvKey | packages/vite-plugins/src/env-shared.ts:7-15 | the first prefix, or `VITE_` when there is none, followed by the normalised key |
| EnvShared.Own | packages/vite-plugins/src/env-shared.ts:65-66 | an object spreads its own properties |
| EnvShared.MergeByMode | packages/vite-plugins/src/env-shared.ts:64-68 | the merged record has each key once, whatever the two records hold |
| EnvShared.MergeByModeLookup | packages/vite-plugins/src/env-shared.ts:64-68 | a key of the mode's record takes the mode's value, any other the default one; the result has exactly the keys of both |
| EnvShared.MergeWithoutMode | packages/vite-plugins/src/env-shared.ts:64-68 | without a record for the mode the result reads exactly like `default` |
| BootstrapEnv.RawValue | packages/vite-plugins/src/bootstrap-env.ts:36 | a nullish value prints nothing, an object prints its `value` (nothing when that is nullish), anything else its string form |
| BootstrapEnv.EntryLines | packages/vite-plugins/src/bootstrap-env.ts:32-40 | one line per entry |
| BootstrapEnv.EntryLinesAt | packages/vite-plugins/src/bootstrap-env.ts:34-37 | line `i` is `KEY=value` for entry `i` |
| BootstrapEnv.ToLines | packages/vite-plugins/src/bootstrap-env.ts:32-40 | the loop pushes the entries' lines in order and joins them, ending with a newline |
| BootstrapEnv.LinesReadBack | packages/vite-plugins/src/bootstrap-env.ts:32-40 | the text ends with a newline, and splitting the rest on newlines gives exactly the entries' lines |
| BootstrapEnv.EmptyRecordText | packages/vite-plugins/src/bootstrap-env.ts:39 | an empty record gives a lone newline |
| BootstrapEnv.LexTotal | packages/vite-plugins/src/bootstrap-env.ts:46 | the key order is total |
| BootstrapEnv.SortKeys | packages/vite-plugins/src/bootstrap-env.ts:46 | the keys come out sorted and as a permutation of the input |
| BootstrapEnv.DtsMembers | packages/vite-plugins/src/bootstrap-env.ts:49 | one `readonly KEY: string` member per key, in order |
| BootstrapEnv.DtsLines | packages/vite-plugins/src/bootstrap-env.ts:46-55 | the declaration opens `ImportMetaEnv`, lists one member per merged key in sorted order, and closes with the fixed `ImportMeta` lines and a final empty line |
| BootstrapEnv.ModeOf | packages/vite-plugins/src/bootstrap-env.ts:17 | an explicit mode wins, then `MODE`, then `NODE_ENV`; with no mode anywhere it is `development` |
| BootstrapEnv.Bootstrap | packages/vite-plugins/src/bootstrap-env.ts:29-57 | the mode file holds the lines of the merged record, the default file those of `default` alone, and a types file is produced exactly when types are not disabled and a non-empty output path is given, with the declaration of the merged keys |
| Env.EnvName | packages/axios/src/env.ts:11 | an unset or empty `NODE_ENV` is `development`, any other value is kept |
| Env.BaseUrl | packages/axios/src/env.ts:12 | `production` takes `prod`; `staging` takes a non-empty `staging`, else `prod`; anything else takes `dev` |
| Env.EnvDefaultsLookup | packages/axios/src/env.ts:13 | the chosen URL replaces any `baseURL` in the defaults, and every other default is kept |
| Env.UnsetIsDevelopment | packages/axios/src/env.ts:11-12 | an unset or empty `NODE_ENV` takes the `dev` URL |
| Env.CreateClientForEnv | packages/axios/src/env.ts:9-14 | a fresh client whose defaults are the base defaults spread with the caller's defaults and the chosen URL, with no controllers and no plugins |
| Json.ToJson | packages/axios/src/utils.ts:10-11 | `JSON.stringify` gives `undefined` exactly for `undefined` |
| Json.ItemsToJson | packages/axios/src/utils.ts:10-11 | array elements are printed one for one and in order, each as its JSON form, `undefined` as `null` |
| Json.FieldsToJson | packages/axios/src/utils.ts:10-11 | object properties holding `undefined` are omitted, so the printed object never has more members |
| Json.FieldsToJsonMembers | packages/axios/src/utils.ts:10-11 | a member is printed exactly when some property of that name holds a value that has a JSON form, and it is printed as that form |
| Json.Stringify | packages/utils/src/classes/persistent-store.ts:136 | `JSON.stringify` returns `undefined` exactly for `undefined` |
| Json.ParseSerialize | packages/utils/src/classes/persistent-store.ts:134-170 | parsing the printed text of a well-formed JSON tree gives that tree back |
| Json.StringifyParse | packages/utils/src/classes/persistent-store.ts:134-170 | `JSON.parse(JSON.stringify(v))` is the JSON image of `v` for every value other than `undefined` |
| RequestKey.KeyMethod | packages/axios/src/utils.ts:8 | a missing or falsy method is `GET`; a method string is upper-cased |
| RequestKey.KeyUrl | packages/axios/src/utils.ts:9 | a missing url is empty; a url string is kept |
| RequestKey.KeyParams | packages/axios/src/utils.ts:10 | falsy params give an empty field, other params their JSON text |
| RequestKey.KeyData | packages/axios/src/utils.ts:11 | falsy data give an empty field, string data themselves, other data their JSON text |
| RequestKey.BuildRequestKey | packages/axios/src/utils.ts:7-13 | the key is the method, url, params and data fields separated by `|`, so at least three characters long |
| RequestKey.KeySplits | packages/axios/src/utils.ts:7-13 | splitting a key on `|` gives back exactly its four fields when none holds a `|` |
| RequestKey.SameKeySameFields | packages/axios/src/utils.ts:7-13 | two configurations share a key only when their four fields print the same |
| RequestKey.KeyParamsDecode | packages/axios/src/utils.ts:10 | the params field of a key is JSON that decodes to the params object |
| Cache.RequestCache.constructor | packages/axios/src/cache.ts:5-6 | a new cache is empty |
| Cache.RequestCache.Get | packages/axios/src/cache.ts:12-21 | a missing key reads `undefined` and changes nothing; a live entry returns its data and changes nothing; an expired entry reads `undefined` and is deleted |
| Cache.RequestCache.Set | packages/axios/src/cache.ts:27-29 | the entry is replaced by the data expiring `ttlMs` after `now` |
| Cache.RequestCache.Clear | packages/axios/src/cache.ts:35-39 | a non-empty key removes only that entry; no key or `''` empties the cache |
| Cache.ReadAt | packages/axios/src/cache.ts:12-21 | a missing or expired entry reads as `undefined` |
| Cache.SetThenRead | packages/axios/src/cache.ts:12-29 | a write is read back at every instant up to `now + ttl`, and not after |
| Cache.SetKeepsOthers | packages/axios/src/cache.ts:27-29 | a write leaves every other key's reads as they were |
| Retry.NewBackoff | packages/axios/src/retry.ts:14-18 | `base` defaults to 200 ms and `max` to 8000 ms; given values are kept |
| Retry.NextDelay | packages/axios/src/retry.ts:24-27 | the wait never exceeds `max`, and is either `max` or `base * 2^(attempt-1)` plus the jitter |
| Retry.NextDelayBounds | packages/axios/src/retry.ts:24-27 | with a jitter in `[0, base)` the wait lies between the capped un-jittered delay and that plus `base` |
| Retry.NextDelayMonotone | packages/axios/src/retry.ts:24-27 | for a fixed jitter and a non-negative base the wait never shrinks from one attempt to the next |
| Retry.NextDelayDoubles | packages/axios/src/retry.ts:26 | below the cap, each further attempt doubles the un-jittered part |
| ErrorTips.Configure | packages/axios/src/plugins/error-tips.ts:14-18 | the business code field defaults to `code`, the message field to `message`, the success code to 0, and requests are not silent by default |
| ErrorTips.Tip | packages/axios/src/plugins/error-tips.ts:20-24 | a toast is shown exactly when there is a toast function and the request's `__silent`, or else the default, is falsy; it shows the message |
| ErrorTips.ResponseTip | packages/axios/src/plugins/error-tips.ts:27-35 | a tip follows only a numeric business code other than the success code, and then shows the business message or `业务错误` |
| ErrorTips.ErrorMessage | packages/axios/src/plugins/error-tips.ts:36-53 | no response means the network message; 401 the expired-login one; 500 and above the server one; otherwise the response's message, the error's message or `请求失败`, the first truthy; never empty |
| ErrorTips.TipsPlugin | packages/axios/src/plugins/error-tips.ts:26-54 | the hooks pass every response and error on unchanged, and there is no request hook |
| ErrorTips.SilentNeverToasts | packages/axios/src/plugins/error-tips.ts:20-53 | a request sent with `__silent: true` never shows an error toast |
| ErrorTips.DefaultSilenceDecides | packages/axios/src/plugins/error-tips.ts:20-53 | without a `__silent` flag an error toast is shown exactly when there is a toast function and the default is not silent |
| LoadingPlugin.EventFor | packages/axios/src/plugins/loading.ts:10-12 | `onChange` is called exactly when the config carries a truthy `__requestKey`, with that key |
| LoadingPlugin.OnError | packages/axios/src/plugins/loading.ts:21-26 | an error without a config calls nothing |
| LoadingPlugin.Plugin | packages/axios/src/plugins/loading.ts:7-28 | each hook passes its input on unchanged |
| LoadingPlugin.OnOffPair | packages/axios/src/plugins/loading.ts:9-26 | a request tagged with a key turns loading on for it, and its response or error turns it off for the same key |
| Logger.DebugStore.constructor | packages/axios/src/plugins/logger.ts:24-25 | a new store holds no entries |
| Logger.DebugStore.Push | packages/axios/src/plugins/logger.ts:26 | the entry is appended at the end |
| Logger.DebugStore.List | packages/axios/src/plugins/logger.ts:27 | the entries in insertion order |
| Logger.DebugStore.Clear | packages/axios/src/plugins/logger.ts:28 | the store is emptied |
| Logger.Enabled | packages/axios/src/plugins/logger.ts:37 | an explicit option wins; otherwise logging is on exactly when `NODE_ENV` is not `production` |
| Logger.LoggedMethod | packages/axios/src/plugins/logger.ts:53 | a missing method is logged as `GET`, a method string upper-cased |
| Logger.Duration | packages/axios/src/plugins/logger.ts:50-51 | without a start stamp the duration is 0; with one it is the time since the stamp |
| Logger.ResponseEntry | packages/axios/src/plugins/logger.ts:52-62 | a successful entry with the response's status and data, the logged method and url, the request's params and body, the duration and the time |
| Logger.ErrorEntry | packages/axios/src/plugins/logger.ts:68-81 | a failed entry with the error and the status of its response when there is one; the method, url, params, body and duration are read from the error's config (`GET`, no url and no duration when it has none), and the time is now |
| Logger.LoggerPlugin.constructor | packages/axios/src/plugins/logger.ts:35-37 | the plugin writes to the given store and is enabled as `Enabled` says |
| Logger.LoggerPlugin.OnRequest | packages/axios/src/plugins/logger.ts:39-46 | when enabled the config gains `__startAt`; otherwise it is returned unchanged |
| Logger.LoggerPlugin.OnResponse | packages/axios/src/plugins/logger.ts:47-64 | the response is returned unchanged, and exactly one successful entry is appended when enabled |
| Logger.LoggerPlugin.OnError | packages/axios/src/plugins/logger.ts:65-83 | the error is returned unchanged, and exactly one failed entry is appended when enabled |
| Logger.StampedDuration | packages/axios/src/plugins/logger.ts:44-51 | a config stamped at a non-zero time `t0` gives a response logged at `t1` the duration `t1 - t0` |
| Client.RequestHooks | packages/axios/src/client.ts:44-47 | the request hooks run in plugin order, one per plugin |
| Client.ResponseHooks | packages/axios/src/client.ts:53-56 | the response hooks run in plugin order, one per plugin |
| Client.ErrorHooks | packages/axios/src/client.ts:60-63 | the error hooks run in plugin order, one per plugin |
| Client.ChainAppend | packages/axios/src/client.ts:44-47 | a plugin registered last runs its hook after every earlier one, on their result |
| Client.ChainCons | packages/axios/src/client.ts:44-47 | the first plugin's hook runs first, on the original value |
| Client.ChainDeclines | packages/axios/src/client.ts:44-47 | when every hook is absent or returns nothing, the value is passed on unchanged |
| Client.Dispatch | packages/axios/src/client.ts:37-66 | one attempt succeeds exactly when the network accepts the config the request hooks produced; a success carries the network's response after the response hooks, and a failure the network's error after the error hooks |
| Client.RequestKeyOf | packages/axios/src/client.ts:86 | the key is the caller's non-empty `key`, and otherwise the one `buildRequestKey` derives from the config; never empty |
| Client.TaggedKey | packages/axios/src/client.ts:38 | the interceptor registers a tagged config under its `__requestKey` |
| Client.DefaultRetryOnCoded | packages/axios/src/client.ts:96-99 | an error with a code other than `ECONNABORTED` is retried by default exactly when its response status is in 500-599 |
| Client.PolicyOfDefaults | packages/axios/src/client.ts:92-99 | no `times` means no retry; no strategy means the exponential back-off of 200 ms base and 8000 ms cap; no `retryOn` means the default test; given options are used as they are |
| Client.ExponentialPolicyCapped | packages/axios/src/client.ts:93 | under the exponential strategy no wait exceeds its `max` |
| Client.RunBounds | packages/axios/src/client.ts:101-117 | the network is asked at least once and at most `times + 1` times, with exactly one wait between consecutive attempts |
| Client.RunOutcome | packages/axios/src/client.ts:101-117 | the result is the last attempt's answer; every earlier attempt failed with an error `retryOn` accepted; a failure ends the run only when `retryOn` rejects it or the retries are spent |
| Client.NoRetryOnRejectedError | packages/axios/src/client.ts:110-113 | an error `retryOn` rejects on the first attempt is thrown at once, after one network call and no wait |
| Client.RunDelaysCapped | packages/axios/src/client.ts:114-115 | when `nextDelay` never exceeds a cap, no wait of the run does |
| Client.RunStart | packages/axios/src/client.ts:101 | before the loop no attempt has been made and no wait taken |
| Client.RunStops | packages/axios/src/client.ts:104-113 | an attempt that succeeds, or fails without a retry, ends the run with its answer and the waits so far |
| Client.RunContinues | packages/axios/src/client.ts:110-115 | a retried failure adds the wait `nextDelay(failures)` and moves on to the next attempt |
| Client.SameOutsideTrans | packages/axios/src/client.ts:101-117 | steps that each leave the other keys' controllers alone leave them alone together |
| Client.AbortHandle.constructor | packages/axios/src/client.ts:40 | a new controller is not aborted |
| Client.AbortHandle.Abort | packages/axios/src/client.ts:128 | the controller is aborted |
| Client.AxiosClient.constructor | packages/axios/src/client.ts:20-30 | the caller's defaults are laid over the 15000 ms timeout and JSON content type; no controllers and no plugins |
| Client.AxiosClient.Use | packages/axios/src/client.ts:74-76 | the plugin is appended after the registered ones; nothing else changes |
| Client.AxiosClient.UseRequest | packages/axios/src/client.ts:149-151 | a plugin with only this request hook is appended |
| Client.AxiosClient.UseResponse | packages/axios/src/client.ts:158-160 | a plugin with only this response hook is appended |
| Client.AxiosClient.UseError | packages/axios/src/client.ts:167-169 | a plugin with only this error hook is appended |
| Client.AxiosClient.Cancel | packages/axios/src/client.ts:125-131 | the controller under the key, if any, is aborted and forgotten; every other entry is kept |
| Client.AxiosClient.CancelAll | packages/axios/src/client.ts:137-142 | every registered controller is aborted and the map is emptied |
| Client.AxiosClient.RunRequestHooks | packages/axios/src/client.ts:44-48 | the loop yields the chained request hooks of the registered plugins |
| Client.AxiosClient.RunResponseHooks | packages/axios/src/client.ts:52-57 | the loop yields the chained response hooks of the registered plugins |
| Client.AxiosClient.RunErrorHooks | packages/axios/src/client.ts:59-64 | the loop yields the chained error hooks of the registered plugins |
| Client.AxiosClient.Send | packages/axios/src/client.ts:37-66 | the attempt's outcome is `Dispatch`; a config without a signal registers a fresh, unaborted controller under its key, one with a signal registers nothing |
| Client.AxiosClient.Attempt | packages/axios/src/client.ts:103-116 | one pass of the loop: a success stops and forgets the key's controller; a failure stops exactly as `RunFrom` says, otherwise adds its wait; other keys are untouched |
| Client.AxiosClient.RetryLoop | packages/axios/src/client.ts:101-117 | the loop's outcome, call count and waits are exactly `RunFrom` from the first attempt; only the key's controller changes |
| Client.AxiosClient.Request | packages/axios/src/client.ts:85-118 | the request is tagged with its key and run as `RunFrom` under the options' policy; `autoCancel` aborts an older request under the key; a success leaves no controller under the key, a failure without a signal leaves its last fresh one |
| Methods.Normalize | packages/axios/src/methods.ts:45-75 | the corrected normaliser of the Findings: scalars and form bodies are kept; a `Date` becomes its ISO text exactly when `dateToISO` is set, wherever it sits; arrays keep their length with each element normalised; objects stay objects |
| Methods.NormalizeFields | packages/axios/src/methods.ts:58-74 | the property loop of the corrected normaliser adds no property, and without `filterEmpty` keeps every property name |
| Methods.NormalizeFieldsLookup | packages/axios/src/methods.ts:59-73 | as written, with unique names: a property survives exactly when it is not an empty value (`''`, `null`, `undefined`) dropped by `filterEmpty`; a `Date` property becomes its ISO text exactly when `dateToISO` is set, an object property is normalised in turn, any other keeps its value |
| Methods.NormalizeAgrees | packages/axios/src/methods.ts:52-75 | on values with no `Date` inside an array or at the top, and no form body, the code as written and the corrected `Normalize` agree |
| Methods.NormalizeFieldsAgree | packages/axios/src/methods.ts:59-73 | the property loop as written and the corrected one agree on such properties |
| Methods.DateInArrayLost | packages/axios/src/methods.ts:56-57 | as written, `[date]` with `dateToISO` becomes `[{}]`; the corrected function gives the ISO text |
| Methods.NormalizeAsWritten | packages/axios/src/methods.ts:52-75 | as written: falsy values and scalars are kept; an array keeps its length and each element is normalised in turn; a `Date` or form body reached directly becomes `{}`; an object stays an object |
| Methods.NormalizeFieldsAsWritten | packages/axios/src/methods.ts:58-74 | the property loop as written adds no property, and without `filterEmpty` keeps every property name |
| Methods.FormPairs | packages/axios/src/methods.ts:37-39 | one pair per own key: the property names of an object, the indices of an array, nothing otherwise |
| Methods.SerializeAsWritten | packages/axios/src/methods.ts:33-43 | as written: without a form content type the body is returned unchanged; with one the result is a form holding `key=String(value)` for each own key of an object or index of an array, in order, and an empty form for anything else, a date or a form body included |
| Methods.SerializeDataIfNeeded | packages/axios/src/methods.ts:33-43 | the corrected serialiser of the Findings: a form body is kept; otherwise as written, a form holding `key=String(value)` for each own key under a form content type and the body unchanged without one |
| Methods.FormFields | packages/axios/src/methods.ts:36-38 | reading a form back gives one string property per pair |
| Methods.FormRoundTrip | packages/axios/src/methods.ts:33-43 | an object of string values read back from the form the code as written builds is the same object |
| Methods.FormBodyLost | packages/axios/src/methods.ts:136-141 | as written, a `post` with a form content type and a `transform` sends an empty form; the corrected functions keep the form |
| Methods.KeyFor | packages/axios/src/methods.ts:119 | the caller's non-empty `key`, otherwise the key derived from the config, as the client itself chooses it; never empty |
| Methods.Prepared | packages/axios/src/methods.ts:136-141 | the body as `doRequest` transforms it, or none exactly when `encrypt` throws on the normalised payload: a form under a form content type, an empty form when the body already was one; without a form content type or `encrypt`, a body with no date in an array or form body inside comes out as the documented normaliser says |
| Methods.Outgoing | packages/axios/src/methods.ts:121-141 | the config handed on carries `__silent` and keeps property names unique; there is none only when an `encrypt` function throws |
| Methods.SilentTagged | packages/axios/src/methods.ts:121-141 | tagging a config with `__silent` and then replacing its body keeps the tag and unique property names |
| Methods.OutgoingLookup | packages/axios/src/methods.ts:121-141 | nothing is sent exactly when there is a body, a `transform` and its preparation throws; otherwise the config sent on carries `__silent`, the body as written transforms it (normalised, encrypted, serialised) when it has a body and a `transform`, and every other property unchanged |
| Methods.ClientOptionsOf | packages/axios/src/methods.ts:120-143 | `autoCancel` defaults to true, and the client registers the request under the same key as `doRequest` |
| Methods.Settle | packages/axios/src/methods.ts:143-148 | a client failure is passed on; without `decrypt` or `contract` the response data is the result; otherwise the result is resolved, or `decrypt` or the contract threw; it is never an `encrypt` exception |
| Methods.Written | packages/axios/src/methods.ts:150-155 | the cache gains an entry expiring at `now + ttl` exactly when caching is on and the data resolved; otherwise it is unchanged |
| Methods.VerbExtras | packages/axios/src/methods.ts:172-177 | `loading`, `contract` and `transform` come from the options; every other extra from `options.extras` |
| Methods.VerbConfig | packages/axios/src/methods.ts:170-292 | a verb's config has unique property names; without a caller `config` it is `method`, `url`, `data` (body verbs only) and `params`, in that order |
| Methods.VerbConfigLookup | packages/axios/src/methods.ts:183-191 | the caller's `config` wins for every property it sets; otherwise the method is the verb's name, the url and params are the arguments, and only `post`, `put` and `patch` carry `data`, serialised as written for the configured content type |
| Methods.Api.constructor | packages/axios/src/methods.ts:108-109 | the API wraps the given client and a new, empty cache |
| Methods.Api.Call | packages/axios/src/methods.ts:143-148 | when `encrypt` throws, the call settles with that exception and neither the client nor a controller is touched; otherwise the settled result, calls and waits are those of the client's retry loop on the config `doRequest` hands on, its body transformed as written; only the key's controller changes |
| Methods.Api.ReadCache | packages/axios/src/methods.ts:124-130 | with caching on, the cache is read (an expired entry is dropped); otherwise `undefined` and no change |
| Methods.Api.WriteCache | packages/axios/src/methods.ts:150-155 | the cache becomes `Written` |
| Methods.Api.DoRequest | packages/axios/src/methods.ts:118-163 | a cache hit answers with the cached data: no loading event, no client call, nothing changed; otherwise the loading events are on then off for the key whatever the outcome (an `encrypt`, `decrypt` or contract exception included), the result is the `encrypt` exception with no client call or the client's run settled, and only resolved data is cached; the caller's config comes back as written in place: `__silent` always set, and on a miss whose `encrypt` does not throw, the outgoing config with the transformed `data`; `api.request` (methods.ts:297-302) is this same call on the caller's own config |
| Methods.Api.Fetch | packages/axios/src/methods.ts:131-162 | on a miss, loading on and off around the client call, even when `encrypt` throws before it, and the cache written from the settled result |
| Methods.Api.CallAndStore | packages/axios/src/methods.ts:134-157 | the client call settled (or the `encrypt` exception, with no call), then resolved data cached under the cache key for the ttl |
| Methods.Api.Send | packages/axios/src/methods.ts:170-292 | each verb runs `doRequest` on its config and extras: a hit answers from the cache with no event, call or change; a miss runs the client unless `encrypt` throws, fires loading on and off when enabled and writes resolved data to the cache; plugins never change, and only the request's own controller may |
| Methods.Api.ClearCache | packages/axios/src/methods.ts:305 | a non-empty key forgets that entry only; otherwise the whole cache is emptied |
| Methods.Api.ClearAllCache | packages/axios/src/methods.ts:306 | the cache is emptied |

## Left out

- **The axios instance itself.** Not modelled: `axios.create`, the merge of the instance defaults into each request, `validateStatus` and real `AbortController` signals. One attempt is the oracle's answer to the config the request hooks produced. Aborting is a ghost `aborted` flag on a handle.
- **Timers and concurrency.** `sleep`, `setTimeout` and `withTimeout` are left out: the waits of a retry loop are returned as a list of delays. Requests run one at a time, so concurrent requests sharing the controller map and the cache are not modelled.
- **Clocks and randomness.** `Date.now` and `Math.random` are parameters (`now`, `start`, `finish` and `jitter`). `randomInt` is left out.
- Logger.LoggerPlugin.OnResponse: the two separate `Date.now()` readings of the response hook (duration and time stamp) are one `now`.
- Logger.LoggerPlugin.OnError: the same single `now` for the two `Date.now()` readings of the error hook.
- Logger.LoggerPlugin.OnRequest: returns a stamped copy of the config. The source writes `__startAt` into the caller's config object in place, and that aliasing is not captured.
- Logger.Duration: a truthy `__startAt` that is not a number gives 0. JavaScript coerces it in `Date.now() - x` (a numeric text or `true` is subtracted, other values give `NaN`). Only `onRequest` writes the stamp, and it always writes a number.
- **Numbers.** Numbers are unbounded integers, with reals for back-off delays. `NaN`, infinities, fractions and `isNumber`'s finiteness test are floating-point semantics and are not modelled.
- **Strings.** Strings are sequences of characters. UTF-16 code units, surrogate pairs and locale-aware case mapping are not modelled: `toUpperCase`/`toLowerCase` map ASCII letters only.
- BootstrapEnv.SortKeys: `localeCompare` is replaced by code-unit order.
- **Regular-expression replace chains.** They are modelled by the character classes they match. The `split` of `isRgbColor` splits on the separator character.
- **Colour validation.**
  - `parseFloat` for percentage channels and alpha is an abstract predicate (`percentOk`, `alphaOk`).
  - `isColor`/`isColorName`/`isColorString` recurse into each other without terminating on plain names, so they are not modelled.
  - `Number.parseInt` recognises only decimal digits after an optional sign.
- **The `removeConsole` plugin.**
  - `processVueSFC`, the regex extraction of `.vue` script blocks, is not modelled.
  - User `include`/`exclude` patterns are opaque predicates.
  - The Vite plugin wiring is reduced to `apply` and `transform`.
- **File and process I/O.** Not modelled:
  - `writeIfChanged`, `resolveEnvConfigPath`, `parseConfigModule` and the file writes of `bootstrapEnv`;
  - `execCommand` and the console output of `git-branches` (the model starts from the text `git` prints).
- **Objects.**
  - `isObject`, `isPlainObject` (a prototype check) and `structuredClone`/`deepClone` are left out.
  - `deepMerge` copies own enumerable properties in order. Inherited properties and property re-ordering by integer keys are not modelled.
- ObjectUtils.Pick: only own properties are seen. `k in obj` also finds inherited ones, so `pick({}, ['toString'])` copies the function there, where the model adds no key.
- ObjectUtils.Fresh: the integer test reads the token's exact decimal value. Floating-point rounding and overflow are not modelled, so `1e400` (Infinity) counts as an integer and `1.0000000000000000001` (rounded to 1) does not.
- ObjectUtils.SetPathCreates: the same floating-point gap as `Fresh`.
- ObjectUtils.SetPath: modelled on values rather than in place.
  - Aliasing between the target and the value is not captured.
  - Writes made before a throw are not kept.
  - A `Date`, a form body, or a non-index property on an array is reported as unsupported.
  - Array indices must be below 2^32.
- JsValue.ToJsString: a date prints as its ISO text. JavaScript's `String(date)` gives the `Date.prototype.toString` form (`Thu Jan 01 1970 …`), which depends on the time zone and is not modelled.
- Methods.FormPairs: a date in a form body is encoded from its ISO text, as `ToJsString` gives it, not from `Date.prototype.toString`.
- Methods.SerializeDataIfNeeded: the same date text as `FormPairs`.
- Methods.SerializeAsWritten: the same date text as `FormPairs`.
- BootstrapEnv.RawValue: a date value is written as its ISO text, as `ToJsString` gives it, not from `Date.prototype.toString`.
- Client.AxiosClient.RunRequestHooks: a hook is a total function (its `None` means a falsy return, which keeps the payload). A hook that throws, and so ends the chain, is not modelled. The same holds for `RunResponseHooks` and `RunErrorHooks`.
- Methods.Api.DoRequest: the loading `onChange` callback is taken not to throw. `encrypt`, `decrypt` and the contract may throw and are modelled so.
- **Property order.** Objects keep insertion order throughout. JavaScript lists integer-like keys first, in ascending order, in `Object.keys`, `Object.entries`, spread and `JSON.stringify`. So this model does not capture that order in:
  - `BootstrapEnv.ToLines` (the lines of the `.env` text);
  - `RequestKey.BuildRequestKey` and `Json.Stringify` (the JSON text of params and body);
  - `Methods.SerializeDataIfNeeded`, `Methods.SerializeAsWritten`, `Methods.NormalizeAsWritten` and `Methods.Normalize` (form pair order and normalised property order);
  - `PersistentStorage.PersistentStore.Import` (the order of the `set` calls);
  - `ObjectUtils.DeepMerge` (see above).
- EnvShared.Own: only a plain object spreads properties. A string or an array, which JavaScript would spread into index keys, gives no properties here. A config written as an object of records never has them.
- **`PersistentStore` adapters.** `createWebStorageAdapter` wraps browser storage. Only `MemoryAdapter` is modelled.
- **The permission directive.** `applyEffect`/`restoreEffect` (DOM changes), `installPermissions` and `getPermissionSet` are left out. A decision is reduced to the reaction it selects.
- **Out-of-scope modules.** The Proxy verb dispatcher `createClient`/`build` relies on a dynamic property trap and is not modelled. The runtime type checks, DOM directives, throttle/debounce and CLI commands are not part of this model.
- **String, number and promise helpers.** `trim`, `isString`, `isNumber`, `withTimeout` and `sleep` are not modelled.

## Findings

| source | as written | input that shows it | evidently intended | confidence | as-written member | corrected member |
|---|---|---|---|---|---|---|
| packages/vite-plugins/src/remove-console.ts:179-208 | while matching the parentheses of a console call, a `(` or `)` inside a comment still changes the depth, because the comment branches fall through to the parenthesis test | `console.log(1 /* ) */)` leaves `*/)` in the output | characters inside comments are skipped, and the whole call is removed | high, not executed | RemoveConsole.StripLeavesCommentTail | RemoveConsole.CommentParenCorrected |
| packages/axios/src/methods.ts:56-57 | `normalizePayload` maps array elements through itself. A `Date` reaching it directly has no own entries and becomes `{}` | `normalizePayload([new Date(0)], { dateToISO: true })` gives `[{}]` | every `Date` becomes its ISO text when `dateToISO` is set | high, not executed | Methods.DateInArrayLost | Methods.Normalize |
| packages/axios/src/methods.ts:136-141 | `post`/`put`/`patch` already turn the body into a `URLSearchParams`. `doRequest` then normalises that form to `{}` and encodes it again as an empty form | `post(url, { data: { a: '1' }, config: { headers: { 'Content-Type': 'application/x-www-form-urlencoded' } }, transform: {} })` sends an empty body | the form body `a=1` is sent | high, not executed | Methods.FormBodyLost | Methods.SerializeDataIfNeeded |
