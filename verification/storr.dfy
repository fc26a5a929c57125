/**
 * The `Storr` object: a string-keyed data set loaded lazily, once per
 * binding, from one JSON file and written back to it on request.
 *
 * Each public operation first passes the load gate. The pure `...Step`
 * functions give the meaning of one operation on a snapshot of the object's
 * fields and on the disk; the class `Storr` performs the same operations in
 * place and is proved to agree with them.
 */
module Storr {
  import opened Results
  import opened Json
  import opened Fs

  /** The object's three fields: the backing path (absent for `new Storr` without one), the gate, the data. */
  datatype State = State(source: Option<Path>, inited: bool, data: Data)

  /** What an operation reports through its callback. */
  datatype Error =
    | IoError(code: ErrorCode)  // a read other than ENOENT, a write or an unlink failed
    | ParseError                // the file's text is not a JSON object
    | NoSource                  // no path was ever given

  /** One operation's effect: the new fields, the new disk, the reply, and whether the file was read. */
  datatype Step<T> = Step(state: State, disk: Disk, reply: T, read: bool)

  /** How the source's `set` reports back: through `cb(err)`, or not at all. */
  datatype Callback = Never | Called(err: Option<Error>)

  /** The second argument of the source's keyed `get` callback: a value, or an error in the value's place. */
  datatype Slot = Val(v: Value) | Err(e: Error)

  /** The two arguments the source's keyed `get` passes to its callback. */
  datatype Args = Args(err: Option<Error>, second: Slot)

  /** `use(source)`: rebinds the path and closes the gate; the data stays. */
  function UseStep(s: State, source: Path): (r: State)
    ensures r.source == Some(source) && !r.inited
    ensures r.data == s.data
  {
    State(Some(source), false, s.data)
  }

  /**
   * `load`: the once-only gate. While the gate is open nothing is read.
   * Otherwise the file is read; ENOENT or an empty text gives the empty data
   * set, any other read error or a parse failure is reported and leaves the
   * fields as they were. The gate is open afterwards exactly when no error was
   * reported.
   */
  function LoadStep(s: State, disk: Disk, codec: Codec): (r: Step<Option<Error>>)
    ensures r.disk == disk && r.state.source == s.source
    ensures r.reply.None? <==> r.state.inited
    ensures r.reply.Some? ==> r.state == s
    ensures s.inited ==> r.state == s && r.reply.None? && !r.read
    ensures r.read <==> !s.inited && s.source.Some?
  {
    if s.inited then Step(s, disk, None, false)
    else match s.source
      case None => Step(s, disk, Some(NoSource), false)
      case Some(p) =>
        match Read(disk, p)
        case Failure(code) =>
          if code != ENOENT then Step(s, disk, Some(IoError(code)), true)
          else Step(State(s.source, true, map[]), disk, None, true)
        case Success(text) =>
          if text == "" then Step(State(s.source, true, map[]), disk, None, true)
          else match codec.decode(text)
            case None => Step(s, disk, Some(ParseError), true)
            case Some(d) => Step(State(s.source, true, d), disk, None, true)
  }

  /** `self.data[key] || null`: the bound value when it is truthy, `null` otherwise. */
  function Lookup(data: Data, key: string): (v: Value)
    ensures v == Null || Truthy(v)
    ensures v != Null <==> key in data && Truthy(data[key])
    ensures v != Null ==> v == data[key]
  {
    if key in data && Truthy(data[key]) then data[key] else Null
  }

  /**
   * `set(key, value)` with its callback always invoked: after a successful
   * load `key` is bound to `value` and every other key keeps its binding; on a
   * load error nothing changes and the error is reported.
   */
  function SetStep(s: State, disk: Disk, codec: Codec, key: string, value: Value): (r: Step<Option<Error>>)
    ensures var g := LoadStep(s, disk, codec);
      && r.disk == disk && r.read == g.read && r.reply == g.reply
      && (r.reply.Some? ==> r.state == s)
      && (r.reply.None? ==> r.state.source == s.source && r.state.inited)
      && (r.reply.None? ==> key in r.state.data && r.state.data[key] == value)
      && (r.reply.None? ==> r.state.data.Keys == g.state.data.Keys + {key})
      && (r.reply.None? ==> forall k :: k in g.state.data && k != key ==> r.state.data[k] == g.state.data[k])
  {
    var g := LoadStep(s, disk, codec);
    if g.reply.Some? then g
    else Step(g.state.(data := g.state.data[key := value]), disk, None, g.read)
  }

  /** `set` as written: `(self.data[key] = value) && cb(null)` never calls back when `value` is falsy. */
  function SetAsWritten(s: State, disk: Disk, codec: Codec, key: string, value: Value): (r: Step<Callback>)
    ensures var c := SetStep(s, disk, codec, key, value);
      && r.state == c.state && r.disk == c.disk && r.read == c.read
      && (r.reply == Never <==> c.reply.None? && !Truthy(value))
      && (r.reply.Called? ==> r.reply.err == c.reply)
  {
    var c := SetStep(s, disk, codec, key, value);
    if c.reply.None? && !Truthy(value) then Step(c.state, c.disk, Never, c.read)
    else Step(c.state, c.disk, Called(c.reply), c.read)
  }

  /**
   * Keyed `get(key)` with the load error in the error position: the fields
   * are those after the load, and the reply is the truthy bound value or
   * `null`, or the load error.
   */
  function GetStep(s: State, disk: Disk, codec: Codec, key: string): (r: Step<Result<Value, Error>>)
    ensures var g := LoadStep(s, disk, codec);
      && r.state == g.state && r.disk == disk && r.read == g.read
      && (r.reply.Failure? <==> g.reply.Some?)
      && (r.reply.Failure? ==> Some(r.reply.error) == g.reply)
      && (r.reply.Success? ==> r.reply.value == Lookup(g.state.data, key))
  {
    var g := LoadStep(s, disk, codec);
    match g.reply
    case Some(e) => Step(g.state, disk, Failure(e), g.read)
    case None => Step(g.state, disk, Success(Lookup(g.state.data, key)), g.read)
  }

  /** Keyed `get` as written: the first callback argument is always `null`, even when the load failed. */
  function GetAsWritten(s: State, disk: Disk, codec: Codec, key: string): (r: Step<Args>)
    ensures var c := GetStep(s, disk, codec, key);
      && r.state == c.state && r.disk == c.disk && r.read == c.read
      && r.reply.err == None
      && (r.reply.second.Err? <==> c.reply.Failure?)
      && (c.reply.Failure? ==> r.reply.second == Err(c.reply.error))
      && (c.reply.Success? ==> r.reply.second == Val(c.reply.value))
  {
    var c := GetStep(s, disk, codec, key);
    match c.reply
    case Failure(e) => Step(c.state, c.disk, Args(None, Err(e)), c.read)
    case Success(v) => Step(c.state, c.disk, Args(None, Val(v)), c.read)
  }

  /** `get()` with no key: the whole data set after a successful load; nothing on a load error. */
  function GetAllStep(s: State, disk: Disk, codec: Codec): (r: Step<Option<Data>>)
    ensures var g := LoadStep(s, disk, codec);
      && r.state == g.state && r.disk == disk && r.read == g.read
      && (r.reply.Some? <==> g.reply.None?)
      && (r.reply.Some? ==> r.reply.value == r.state.data)
  {
    var g := LoadStep(s, disk, codec);
    if g.reply.Some? then Step(g.state, disk, None, g.read)
    else Step(g.state, disk, Some(g.state.data), g.read)
  }

  /**
   * `del(key)`: after a successful load `key` is unbound (an absent key is
   * not an error) and every other key keeps its binding; on a load error
   * nothing changes and the error is reported.
   */
  function DelStep(s: State, disk: Disk, codec: Codec, key: string): (r: Step<Option<Error>>)
    ensures var g := LoadStep(s, disk, codec);
      && r.disk == disk && r.read == g.read && r.reply == g.reply
      && (r.reply.Some? ==> r.state == s)
      && (r.reply.None? ==> r.state.source == s.source && r.state.inited)
      && (r.reply.None? ==> key !in r.state.data && Lookup(r.state.data, key) == Null)
      && (r.reply.None? ==> r.state.data.Keys == g.state.data.Keys - {key})
      && (r.reply.None? ==> forall k :: k in r.state.data ==> r.state.data[k] == g.state.data[k])
  {
    var g := LoadStep(s, disk, codec);
    if g.reply.Some? then g
    else Step(g.state.(data := g.state.data - {key}), disk, None, g.read)
  }

  /** The path of an open gate's file, or `NoSource` when the fields were never bound. */
  function Target(s: State): (r: Result<Path, Error>)
    ensures r.Success? <==> s.source.Some?
  {
    match s.source
    case None => Failure(NoSource)
    case Some(p) => Success(p)
  }

  /** Lifts a file-system error code into the store's error. */
  function Reported(err: Option<ErrorCode>): (r: Option<Error>)
    ensures r.None? <==> err.None?
  {
    match err
    case None => None
    case Some(code) => Some(IoError(code))
  }

  /**
   * `save`: after a successful load, overwrites the file at `source` with the
   * encoding of the whole data set and reports the write's error; on a load
   * error it writes nothing. The fields are those after the load either way.
   */
  function SaveStep(s: State, disk: Disk, codec: Codec): (r: Step<Option<Error>>)
    ensures var g := LoadStep(s, disk, codec);
      && r.state == g.state && r.read == g.read
      && (g.reply.Some? ==> r.disk == disk && r.reply == g.reply)
      && (g.reply.None? && s.source.Some? ==>
            var w := Write(disk, s.source.value, codec.encode(g.state.data));
            && r.disk == w.disk
            && (w.err.None? ==> r.reply.None?)
            && (w.err.Some? ==> r.reply == Some(IoError(w.err.value))))
  {
    var g := LoadStep(s, disk, codec);
    if g.reply.Some? then g
    else match Target(g.state)
      case Failure(e) => Step(g.state, disk, Some(e), g.read)
      case Success(p) =>
        var w := Write(disk, p, codec.encode(g.state.data));
        Step(g.state, w.disk, Reported(w.err), g.read)
  }

  /**
   * `destroy`: after a successful load, removes the file at `source` and
   * reports the unlink's error; on a load error the disk is untouched. The
   * fields are those after the load either way: the data stays in memory.
   */
  function DestroyStep(s: State, disk: Disk, codec: Codec): (r: Step<Option<Error>>)
    ensures var g := LoadStep(s, disk, codec);
      && r.state == g.state && r.read == g.read
      && (g.reply.Some? ==> r.disk == disk && r.reply == g.reply)
      && (g.reply.None? && s.source.Some? ==>
            var u := Unlink(disk, s.source.value);
            && r.disk == u.disk
            && (u.err.None? ==> r.reply.None?)
            && (u.err.Some? ==> r.reply == Some(IoError(u.err.value))))
  {
    var g := LoadStep(s, disk, codec);
    if g.reply.Some? then g
    else match Target(g.state)
      case Failure(e) => Step(g.state, disk, Some(e), g.read)
      case Success(p) =>
        var u := Unlink(disk, p);
        Step(g.state, u.disk, Reported(u.err), g.read)
  }

  /** A missing file or an empty one loads as the empty data set, without error. */
  lemma LoadAbsentOrEmpty(s: State, disk: Disk, codec: Codec, p: Path)
    requires !s.inited && s.source == Some(p)
    requires Read(disk, p) == Failure(ENOENT) || Read(disk, p) == Success("")
    ensures LoadStep(s, disk, codec) == Step(State(Some(p), true, map[]), disk, None, true)
  {
  }

  /** A read error other than ENOENT is reported and changes nothing. */
  lemma LoadReadError(s: State, disk: Disk, codec: Codec, p: Path, code: ErrorCode)
    requires !s.inited && s.source == Some(p)
    requires Read(disk, p) == Failure(code) && code != ENOENT
    ensures LoadStep(s, disk, codec) == Step(s, disk, Some(IoError(code)), true)
  {
  }

  /** A non-empty file replaces the data by its parsed contents, or, when it does not parse, changes nothing. */
  lemma LoadParsed(s: State, disk: Disk, codec: Codec, p: Path, text: string)
    requires !s.inited && s.source == Some(p)
    requires Read(disk, p) == Success(text) && text != ""
    ensures codec.decode(text).Some? ==>
      LoadStep(s, disk, codec) == Step(State(Some(p), true, codec.decode(text).value), disk, None, true)
    ensures codec.decode(text).None? ==> LoadStep(s, disk, codec) == Step(s, disk, Some(ParseError), true)
  {
  }

  /** Finding: a failed load reaches the keyed `get` callback as `cb(null, err)`, so the error slot reads as success. */
  lemma GetAsWrittenHidesLoadError(s: State, disk: Disk, codec: Codec, key: string, code: ErrorCode)
    requires !s.inited && s.source.Some?
    requires Read(disk, s.source.value) == Failure(code) && code != ENOENT
    ensures GetAsWritten(s, disk, codec, key).reply == Args(None, Err(IoError(code)))
    ensures GetStep(s, disk, codec, key).reply == Failure(IoError(code))
  {
  }

  /** Finding: storing a falsy value succeeds but the `set` callback is never invoked; the corrected step reports success. */
  lemma SetFalsyNeverCallsBack(s: State, disk: Disk, codec: Codec, key: string)
    requires s.inited
    ensures SetAsWritten(s, disk, codec, key, Num(0)).reply == Never
    ensures SetStep(s, disk, codec, key, Num(0)).reply == None
    ensures SetStep(s, disk, codec, key, Num(0)).state.data[key] == Num(0)
  {
  }

  /** The `Storr` object, its fields updated in place. `json` stands for the global JSON codec. */
  class Storr {
    var source: Option<Path>
    var inited: bool
    var data: Data
    const json: Codec

    /** The fields as a value, for the specifications. */
    function Snapshot(): State
      reads this
    {
      State(source, inited, data)
    }

    /** `new Storr(source)`: empty data, then `use(source)`; `source` may be left out. */
    constructor (source: Option<Path>, json: Codec)
      ensures Snapshot() == State(source, false, map[])
      ensures this.json == json
    {
      this.data := map[];
      this.source := source;
      this.inited := false;
      this.json := json;
    }

    method Use(source: Path) returns (self: Storr)
      modifies this
      ensures self == this
      ensures Snapshot() == UseStep(old(Snapshot()), source)
    {
      this.source := Some(source);
      inited := false;
      self := this;
    }

    method Load(fs: FileSystem) returns (err: Option<Error>)
      modifies this, fs`readCount
      ensures var r := LoadStep(old(Snapshot()), fs.disk, json);
        && Snapshot() == r.state && err == r.reply
        && fs.readCount == old(fs.readCount) + (if r.read then 1 else 0)
    {
      if inited {
        return None;
      }
      if source.None? {
        return Some(NoSource);
      }
      var content := fs.ReadFile(source.value);
      match content {
        case Failure(code) =>
          if code != ENOENT {
            return Some(IoError(code));
          }
          data := map[];
        case Success(text) =>
          if text == "" {
            data := map[];
          } else {
            var parsed := json.decode(text);
            if parsed.None? {
              return Some(ParseError);
            }
            data := parsed.value;
          }
      }
      inited := true;
      err := None;
    }

    method Set(fs: FileSystem, key: string, value: Value) returns (err: Option<Error>)
      modifies this, fs`readCount
      ensures var r := SetStep(old(Snapshot()), fs.disk, json, key, value);
        && Snapshot() == r.state && err == r.reply
        && fs.readCount == old(fs.readCount) + (if r.read then 1 else 0)
    {
      err := Load(fs);
      if err.None? {
        data := data[key := value];
      }
    }

    method Get(fs: FileSystem, key: string) returns (r: Result<Value, Error>)
      modifies this, fs`readCount
      ensures var g := GetStep(old(Snapshot()), fs.disk, json, key);
        && Snapshot() == g.state && r == g.reply
        && fs.readCount == old(fs.readCount) + (if g.read then 1 else 0)
    {
      var err := Load(fs);
      if err.Some? {
        return Failure(err.value);
      }
      r := Success(Lookup(data, key));
    }

    method GetAll(fs: FileSystem) returns (all: Option<Data>)
      modifies this, fs`readCount
      ensures var g := GetAllStep(old(Snapshot()), fs.disk, json);
        && Snapshot() == g.state && all == g.reply
        && fs.readCount == old(fs.readCount) + (if g.read then 1 else 0)
    {
      var err := Load(fs);
      if err.Some? {
        return None;
      }
      all := Some(data);
    }

    method Del(fs: FileSystem, key: string) returns (err: Option<Error>)
      modifies this, fs`readCount
      ensures var r := DelStep(old(Snapshot()), fs.disk, json, key);
        && Snapshot() == r.state && err == r.reply
        && fs.readCount == old(fs.readCount) + (if r.read then 1 else 0)
    {
      err := Load(fs);
      if err.None? {
        data := data - {key};
      }
    }

    method Save(fs: FileSystem) returns (err: Option<Error>)
      modifies this, fs
      ensures var r := SaveStep(old(Snapshot()), old(fs.disk), json);
        && Snapshot() == r.state && fs.disk == r.disk && err == r.reply
        && fs.readCount == old(fs.readCount) + (if r.read then 1 else 0)
    {
      err := Load(fs);
      if err.Some? {
        return;
      }
      if source.None? {
        return Some(NoSource);
      }
      var failed := fs.WriteFile(source.value, json.encode(data));
      err := Reported(failed);
    }

    method Destroy(fs: FileSystem) returns (err: Option<Error>)
      modifies this, fs
      ensures var r := DestroyStep(old(Snapshot()), old(fs.disk), json);
        && Snapshot() == r.state && fs.disk == r.disk && err == r.reply
        && fs.readCount == old(fs.readCount) + (if r.read then 1 else 0)
    {
      err := Load(fs);
      if err.Some? {
        return;
      }
      if source.None? {
        return Some(NoSource);
      }
      var failed := fs.UnlinkFile(source.value);
      err := Reported(failed);
    }
  }
}
