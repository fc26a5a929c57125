# storr — a Dafny model of the lazily loaded JSON key-value store

storr keeps a whole data set as one string-keyed mapping in memory, backed by
one JSON file. A `Storr` object has three fields. `source` is the backing
path. `inited` is the load gate. `data` is the mapping. Every public operation
(`set`, `get`, `del`, `save`, `destroy`) first passes the once-only `load`
gate. `use` rebinds the path and closes the gate again.

The project has six modules:

- `Results` (`results.dfy`): `Option` and `Result`.
- `Json` (`json.dfy`): the value type and JavaScript truthiness. `JSON.stringify`/`JSON.parse` are an opaque
  `Codec` (any pair of total functions). `RoundTrips` states what the real codec provides.
- `Fs` (`fs.dfy`): the file system as a map from path to entry. An entry is a readable `File(content)`
  or a `Faulty(code)` path. A path that is not in the map does not exist: reading or unlinking it gives
  `ENOENT`. The pure `Read`/`Write`/`Unlink` functions are wrapped by a `FileSystem` class. That class
  counts, in a ghost field, the reads issued.
- `Storr` (`storr.dfy`): a snapshot `State` of the three fields, and one pure `...Step` function per
  operation. Each gives the new fields, the new disk, the callback's reply and whether the file was
  read. The class `Storr` holds the fields and updates them in place. Each of its methods is proved
  to agree with its step function.
- `Sessions` (`sessions.dfy`): sequences of calls (`Run`) and the properties that span several calls:
  one read per binding, set-then-get, del-then-get, save-then-reload, destroy-then-reload.
- `Scenarios` (`scenarios.dfy`): the repository's test cases, replayed against the class's
  specifications, plus one read-count scenario (`TwoGetsOneRead`) that is not among them.

Each callback-style operation becomes a sequential method. It returns what the
callback would receive. The model follows the code as written, except for
keyed `get` and falsy `set` (see "## Findings"). Three behaviours a reader may
not expect:

- `destroy` does not close the gate. After a successful `destroy` and without a
  `use`, the old data is still served from memory (`DestroyKeepsMemory`). Only a
  following `use` of the path loads the empty data set (`DestroyThenReload`).
- An empty file loads as the empty data set, because `data ? JSON.parse(data) : {}`
  tests the text for truthiness.
- `destroy` of a file that is already gone reports `ENOENT`.

## Model

| member | source | states |
|---|---|---|
| Storr.UseStep | lib/storr.js:38-42 | `use(s)` sets the source to `s` and closes the gate; the data is untouched |
| Storr.LoadStep | lib/storr.js:131-143 | an open gate reads nothing and changes nothing; a failed load leaves every field as it was; the gate is open afterwards exactly when no error is reported; the file is read exactly when the gate was closed and a path is bound |
| Storr.LoadAbsentOrEmpty | lib/storr.js:136-138 | a missing file (ENOENT) or an empty one loads as the empty mapping, opens the gate, reports no error |
| Storr.LoadReadError | lib/storr.js:136 | a read error other than ENOENT is reported and leaves data and gate unchanged |
| Storr.LoadParsed | lib/storr.js:137-139 | a non-empty file replaces the data by its parsed contents and opens the gate; a text that does not parse is reported and changes nothing |
| Storr.Lookup | lib/storr.js:77 | `data[key] \|\| null`: the bound value exactly when it is present and truthy, otherwise `null` |
| Storr.SetStep | lib/storr.js:53-62 | after a successful load `key` is bound to `value`, the key set grows by `key` only and every other binding is unchanged; on a load error the fields are untouched and the error is reported |
| Storr.SetAsWritten | lib/storr.js:58 | the callback is never invoked exactly when the load succeeded and the value is falsy; otherwise it receives the load error or `null` |
| Storr.SetFalsyNeverCallsBack | lib/storr.js:58 | storing `0` binds it but the as-written `set` never calls back, while the corrected step reports success |
| Storr.GetStep | lib/storr.js:71-77 | keyed `get` reports the load error exactly when the load fails, otherwise `Lookup` of the loaded data; the fields are those after the load |
| Storr.GetAsWritten | lib/storr.js:76-77 | the callback's first argument is always `null`; its second carries the error exactly when the load failed, otherwise the looked-up value |
| Storr.GetAsWrittenHidesLoadError | lib/storr.js:76 | on an EACCES-style read failure the as-written `get` passes `(null, err)`, while the corrected step returns the failure |
| Storr.GetAllStep | lib/storr.js:75-78 | `get()` delivers the whole loaded data set exactly when the load succeeds |
| Storr.DelStep | lib/storr.js:92-101 | after a successful load `key` is absent (absent before is not an error), the key set shrinks by `key` only and every other binding is unchanged; on a load error nothing changes |
| Storr.SaveStep | lib/storr.js:110-121 | after a successful load the file at `source` becomes the encoding of the whole data set, and the write's error is reported; on a load error nothing is written; the fields are never changed beyond the load |
| Storr.DestroyStep | lib/storr.js:152-163 | after a successful load the file at `source` is unlinked and the unlink's error is reported; on a load error the disk is untouched; the fields are never changed beyond the load |
| Storr.Storr.constructor | lib/storr.js:26-29 | a new object has the empty mapping, the given (possibly missing) source and a closed gate |
| Storr.Storr.Use | lib/storr.js:38-42 | updates the fields as `UseStep` says and returns the object itself |
| Storr.Storr.Load | lib/storr.js:131-143 | updates the fields and returns the error as `LoadStep` says; issues one file read exactly when `LoadStep` reads |
| Storr.Storr.Set | lib/storr.js:53-62 | updates the map in place as `SetStep` says, with the same read count |
| Storr.Storr.Get | lib/storr.js:71-82 | returns and updates as `GetStep` says |
| Storr.Storr.GetAll | lib/storr.js:71-82 | returns and updates as `GetAllStep` says |
| Storr.Storr.Del | lib/storr.js:92-101 | removes the key in place as `DelStep` says |
| Storr.Storr.Save | lib/storr.js:110-121 | writes through the file system as `SaveStep` says |
| Storr.Storr.Destroy | lib/storr.js:152-163 | unlinks through the file system as `DestroyStep` says |
| Fs.Read | lib/storr.js:135 | a readable file yields its text; a missing path yields ENOENT; a faulty path yields its code |
| Fs.Write | lib/storr.js:115 | a successful write makes the file read back as the text and leaves every other path as it was; a failed one changes nothing |
| Json.Truthy | lib/storr.js:77 | exactly `null`, `false`, `0` and `""` are falsy; every other value, every array and object included, is truthy (the test behind `\|\|` here, `&&` at line 58 and `?:` at line 137) |
| Fs.FileSystem.constructor | lib/storr.js:11 | the file system starts with the given disk and no reads counted |
| Fs.FileSystem.ReadFile | lib/storr.js:135 | returns `Read` of the current disk, leaves the disk alone and counts one read |
| Fs.FileSystem.WriteFile | lib/storr.js:115 | the disk and the reported error become what `Write` gives for the old disk |
| Fs.FileSystem.UnlinkFile | lib/storr.js:157 | the disk and the reported error become what `Unlink` gives for the old disk |
| Fs.Unlink | lib/storr.js:157 | a successful unlink makes the path read as ENOENT and leaves every other path as it was; a missing path is an ENOENT error |
| Sessions.Apply | lib/storr.js:38-163 | only `use` moves the source; every other call reads the file exactly when its load does and leaves the gate as its load does |
| Sessions.Run | lib/storr.js:131-143 | a sequence of calls yields one reply per call and at most one file read per call; without a `use` the source never moves and an open gate stays open |
| Sessions.LoadedRunNeverReads | lib/storr.js:133 | once the gate is open, any sequence of calls without `use` reads nothing, keeps the gate open and keeps the source |
| Sessions.OneReadPerBinding | lib/storr.js:131-143 | calls without `use` whose first load succeeds read the file exactly once (none if the gate was open) |
| Sessions.SetThenGet | test/storr.test.js:44-52 | `set(k, v)` then `get(k)` yields `v` if truthy and `null` if falsy; on a load error both report it |
| Sessions.DelThenGet | test/storr.test.js:77-87 | `set(k, v)`, `del(k)`, `get(k)` yields `null` with no errors |
| Sessions.UseForcesReload | lib/storr.js:38-42 | `get()` or `get(k)` right after `use(p)` reads once and reports what a fresh load of `p` gives, whatever was cached |
| Sessions.SaveThenReload | lib/storr.js:110-121 | with a round-tripping codec, after a successful `save` a `use` of the same path loads back exactly the saved data |
| Sessions.DestroyThenReload | lib/storr.js:152-163 | after a successful `destroy`, a `use` of the same path loads the empty mapping without error |
| Sessions.DestroyKeepsMemory | lib/storr.js:152-163 | `destroy` keeps the gate open: a following `get()` still yields the loaded data |
| Scenarios.SetThenGetFoo | test/storr.test.js:44-52 | from a missing file, `set('foo','bar')` then `get('foo')` yields `'bar'` |
| Scenarios.UseResetsGate | test/storr.test.js:55-62 | `use('foo')` sets the source and closes the gate whatever the fields held |
| Scenarios.SetThenGetAll | test/storr.test.js:65-73 | `get()` after `set('foo','bar')` yields exactly `{foo: 'bar'}` |
| Scenarios.SetDelGet | test/storr.test.js:77-87 | `set`, `del`, `get` of `'foo'` yields `null` |
| Scenarios.SetThenSave | test/storr.test.js:91-100 | `save` reports no error and the file holds the encoding of `{foo: ['bar','baz']}` |
| Scenarios.SaveThenDestroy | test/storr.test.js:104-115 | `destroy` after `save` reports no error and the file is gone |
| Scenarios.TwoGetsOneRead | lib/storr.js:133 | two keyed gets in a row on a missing or parseable file issue one read and agree |

## Findings

| source | as written | input that shows it | evidently intended | confidence | as-written member | corrected member |
|---|---|---|---|---|---|---|
| lib/storr.js:76 | the load error is passed as `cb(null, err)`: the error slot is `null` and the error sits where the value goes | a closed gate and a backing file whose read fails with EACCES: `get('k', cb)` calls `cb(null, err)` | `cb(err)`, as `set`, `del`, `save` and `destroy` do | medium, not executed | Storr.GetAsWrittenHidesLoadError | Storr.GetStep |
| lib/storr.js:58 | `(self.data[key] = value) && cb(null)` calls back only when `value` is truthy | `set('k', 0, cb)` on a loaded store binds `0` and never calls `cb` | `cb(null)` after every successful store | high, not executed | Storr.SetFalsyNeverCallsBack | Storr.SetStep |

The class `Storr` and `Sessions` use the corrected `GetStep` and `SetStep`. The
repository's test at test/storr.test.js:81-82 shows the first finding: its
one-argument callback receives the always-`null` first argument, so it passes
whatever `get` finds.

## Left out

- File I/O is the abstract `Fs` disk. `fs.readFile`, `fs.writeFile` and `fs.unlink` become `Read`, `Write` and `Unlink`. A `Faulty` path fails all three with the same code. A readable file whose write fails, and missing parent directories, are not modelled.
- `JSON.parse` and `JSON.stringify` are the opaque `Codec`. No byte-level output is asserted, so the exact text `{"foo":["bar","baz"]}` is not checked. Saved data reloading unchanged is proved only under `RoundTrips`.
- A `JSON.parse` throw is an uncaught exception in the source. The model reports it as `ParseError` and leaves the fields unchanged, which is what the thrown exception does to them. A top-level JSON value that is not an object is treated like a parse failure.
- Loading with no source bound: in Node, `fs.readFile(undefined)` throws synchronously. The model reports `NoSource` and changes nothing. `save`/`destroy` with an open gate and no source (reachable only by setting the fields directly) report `NoSource` too.
- Asynchrony, callback scheduling and duplicate loads from overlapping calls are not modelled. Calls run one at a time.
- Storr.GetAllStep: the get-all error path calls the missing callback `cb` and throws, so the model returns `None` there and nothing else. The success path returns the data as a value, so aliasing of the live object that `get()` hands out is not captured.
- Values are a JSON datatype with unbounded integer numbers. Floating point, integers beyond 2^53 (which a JavaScript number does not hold exactly, so they do not round-trip), `NaN`, `-0`, `undefined` and key coercion are not modelled. Truthiness is the `Truthy` predicate. `RoundTrips` is therefore an assumption about the codec, exact only for data whose numbers a double holds. Array and object values stay shared with the caller through `set` (lib/storr.js:58) and keyed `get` (lib/storr.js:77), as with `get()`; the model's values are immutable, so mutations through those references are not captured.
- Storr.Lookup: keys are own properties only, in `Storr.Lookup` and `Storr.SetStep` alike. In JavaScript `self.data[key]` also finds names inherited from `Object.prototype` (`get('constructor')` yields the inherited function, not `null`), and `set('__proto__', v)` replaces the prototype instead of binding a key; neither is modelled.
- `del` calls back with `cb()` (an undefined error) rather than `cb(null)`; the model reports both as "no error" (`None`).
- The return value `this` of `set`, `get`, `del`, `save`, `destroy` and `load` is left out: callers only chain on it. `use` returns the object itself.
- The test helpers (`rm`, `path.existsSync`) are not modelled. Each scenario instead requires the file to be absent at the start.
