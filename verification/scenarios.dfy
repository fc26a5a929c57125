/**
 * The repository's test cases, replayed against the `Storr` class through
 * its specifications alone; each of them starts, as the tests do, with the
 * data file removed. `TwoGetsOneRead` is not one of them: it adds a
 * read-count scenario over a missing or parseable file.
 */
module Scenarios {
  import opened Results
  import opened Json
  import opened Fs
  import opened Storr

  /** `set('foo', 'bar')` then `get('foo')` yields 'bar'. */
  method SetThenGetFoo(fs: FileSystem, file: Path, json: Codec) returns (val: Result<Value, Error>)
    requires file !in fs.disk
    modifies fs`readCount
    ensures val == Success(Str("bar"))
  {
    var store := new Storr(Some(file), json);
    var err := store.Set(fs, "foo", Str("bar"));
    val := store.Get(fs, "foo");
  }

  /** `use('foo')` rebinds the source and closes the gate, whatever the fields held. */
  method UseResetsGate(json: Codec) returns (store: Storr)
    ensures store.source == Some("foo") && !store.inited
  {
    store := new Storr(None, json);
    store.inited := true;
    store.source := Some("bar");
    var self := store.Use("foo");
  }

  /** `get()` with no key after `set('foo', 'bar')` yields exactly `{foo: 'bar'}`. */
  method SetThenGetAll(fs: FileSystem, file: Path, json: Codec) returns (all: Option<Data>)
    requires file !in fs.disk
    modifies fs`readCount
    ensures all == Some(map["foo" := Str("bar")])
  {
    var store := new Storr(Some(file), json);
    var err := store.Set(fs, "foo", Str("bar"));
    all := store.GetAll(fs);
  }

  /** `set('foo', 'bar')`, `del('foo')`, `get('foo')` yields `null`. */
  method SetDelGet(fs: FileSystem, file: Path, json: Codec) returns (val: Result<Value, Error>)
    requires file !in fs.disk
    modifies fs`readCount
    ensures val == Success(Null)
  {
    var store := new Storr(Some(file), json);
    var err := store.Set(fs, "foo", Str("bar"));
    err := store.Del(fs, "foo");
    val := store.Get(fs, "foo");
  }

  /** `save` after `set('foo', ['bar', 'baz'])` writes the encoding of `{foo: ['bar', 'baz']}` and reports no error. */
  method SetThenSave(fs: FileSystem, file: Path, json: Codec) returns (err: Option<Error>)
    requires file !in fs.disk
    modifies fs
    ensures err == None
    ensures Read(fs.disk, file) == Success(json.encode(map["foo" := Arr([Str("bar"), Str("baz")])]))
  {
    var store := new Storr(Some(file), json);
    err := store.Set(fs, "foo", Arr([Str("bar"), Str("baz")]));
    err := store.Save(fs);
  }

  /** `destroy` after `save` removes the file and reports no error. */
  method SaveThenDestroy(fs: FileSystem, file: Path, json: Codec) returns (err: Option<Error>)
    requires file !in fs.disk
    modifies fs
    ensures err == None
    ensures file !in fs.disk
  {
    var store := new Storr(Some(file), json);
    err := store.Set(fs, "foo", Str("bar"));
    err := store.Save(fs);
    err := store.Destroy(fs);
  }

  /** Two accessors in a row without a `use` read a missing or parseable file once. */
  method TwoGetsOneRead(fs: FileSystem, file: Path, json: Codec) returns (first: Result<Value, Error>, second: Result<Value, Error>)
    requires file !in fs.disk || (fs.disk[file].File? && json.decode(fs.disk[file].content).Some?)
    modifies fs`readCount
    ensures fs.readCount == old(fs.readCount) + 1
    ensures first == second
  {
    var store := new Storr(Some(file), json);
    first := store.Get(fs, "foo");
    second := store.Get(fs, "foo");
  }
}
