/**
 * Sequences of calls on one `Storr` object, one finishing before the next
 * starts, and what they promise together: the file is read once per
 * binding, a value that was set can be read back, a key that was deleted
 * reads as `null`, saved data survives a rebind, and a destroyed file
 * reloads as the empty data set.
 */
module Sessions {
  import opened Results
  import opened Json
  import opened Fs
  import opened Storr

  /** One public call on the object. */
  datatype Call =
    | Use(path: Path)
    | Set(key: string, value: Value)
    | Get(key: string)
    | GetAll
    | Del(key: string)
    | Save
    | Destroy

  /** What one call gives back: `this` for `use`, otherwise what its callback receives. */
  datatype Reply =
    | Chained
    | Signal(err: Option<Error>)
    | Fetched(value: Result<Value, Error>)
    | Everything(all: Option<Data>)

  /** The object's fields together with the disk they are loaded from and saved to. */
  datatype World = World(state: State, disk: Disk)

  /** The world after a sequence of calls, each call's reply, and how many times the file was read. */
  datatype Trace = Trace(world: World, replies: seq<Reply>, fileReads: nat)

  /** One call: every call except `use` passes the load gate first, and none but `use` moves the source. */
  function Apply(w: World, codec: Codec, c: Call): (r: Step<Reply>)
    ensures c.Use? ==> r.state == UseStep(w.state, c.path) && r.disk == w.disk && !r.read
    ensures !c.Use? ==>
      var g := LoadStep(w.state, w.disk, codec);
      && r.read == g.read
      && r.state.source == w.state.source
      && r.state.inited == g.state.inited
  {
    match c
    case Use(p) => Step(UseStep(w.state, p), w.disk, Chained, false)
    case Set(k, v) =>
      var r := SetStep(w.state, w.disk, codec, k, v);
      Step(r.state, r.disk, Signal(r.reply), r.read)
    case Get(k) =>
      var r := GetStep(w.state, w.disk, codec, k);
      Step(r.state, r.disk, Fetched(r.reply), r.read)
    case GetAll =>
      var r := GetAllStep(w.state, w.disk, codec);
      Step(r.state, r.disk, Everything(r.reply), r.read)
    case Del(k) =>
      var r := DelStep(w.state, w.disk, codec, k);
      Step(r.state, r.disk, Signal(r.reply), r.read)
    case Save =>
      var r := SaveStep(w.state, w.disk, codec);
      Step(r.state, r.disk, Signal(r.reply), r.read)
    case Destroy =>
      var r := DestroyStep(w.state, w.disk, codec);
      Step(r.state, r.disk, Signal(r.reply), r.read)
  }

  /** The calls, in order, from world `w`. */
  function Run(w: World, codec: Codec, calls: seq<Call>): (t: Trace)
    ensures |t.replies| == |calls|
    ensures t.fileReads <= |calls|
    ensures NoRebind(calls) ==> t.world.state.source == w.state.source
    ensures NoRebind(calls) && w.state.inited ==> t.world.state.inited
    decreases |calls|
  {
    if calls == [] then Trace(w, [], 0)
    else
      var r := Apply(w, codec, calls[0]);
      var t := Run(World(r.state, r.disk), codec, calls[1..]);
      Trace(t.world, [r.reply] + t.replies, t.fileReads + (if r.read then 1 else 0))
  }

  /** No call in `calls` rebinds the source. */
  predicate NoRebind(calls: seq<Call>) {
    forall i :: 0 <= i < |calls| ==> !calls[i].Use?
  }

  /** Once the gate is open, calls without a `use` never read the file, and the gate stays open. */
  lemma {:induction false} LoadedRunNeverReads(w: World, codec: Codec, calls: seq<Call>)
    requires w.state.inited
    requires NoRebind(calls)
    ensures Run(w, codec, calls).fileReads == 0
    ensures Run(w, codec, calls).world.state.inited
    ensures Run(w, codec, calls).world.state.source == w.state.source
    decreases |calls|
  {
    if calls != [] {
      var r := Apply(w, codec, calls[0]);
      assert NoRebind(calls[1..]) by {
        forall i | 0 <= i < |calls[1..]| ensures !calls[1..][i].Use? {
          assert calls[1..][i] == calls[i + 1];
        }
      }
      LoadedRunNeverReads(World(r.state, r.disk), codec, calls[1..]);
    }
  }

  /**
   * Calls without a `use` read the file at most once: not at all when the
   * gate is already open, exactly once when the first call's load succeeds.
   */
  lemma {:induction false} OneReadPerBinding(w: World, codec: Codec, calls: seq<Call>)
    requires calls != [] && NoRebind(calls)
    requires LoadStep(w.state, w.disk, codec).reply.None?
    ensures Run(w, codec, calls).fileReads == if w.state.inited then 0 else 1
  {
    var r := Apply(w, codec, calls[0]);
    assert !calls[0].Use?;
    assert NoRebind(calls[1..]) by {
      forall i | 0 <= i < |calls[1..]| ensures !calls[1..][i].Use? {
        assert calls[1..][i] == calls[i + 1];
      }
    }
    LoadedRunNeverReads(World(r.state, r.disk), codec, calls[1..]);
  }

  /** `set(k, v)` then `get(k)` yields `v` when it is truthy and `null` when it is falsy; a load error is reported twice. */
  lemma SetThenGet(w: World, codec: Codec, key: string, value: Value)
    ensures var g := LoadStep(w.state, w.disk, codec);
      var t := Run(w, codec, [Set(key, value), Get(key)]);
      && (g.reply.None? ==> t.replies == [Signal(None), Fetched(Success(if Truthy(value) then value else Null))])
      && (g.reply.Some? ==> t.replies == [Signal(g.reply), Fetched(Failure(g.reply.value))])
  {
  }

  /** `set(k, v)`, `del(k)`, `get(k)` yields `null` once the load succeeds. */
  lemma {:induction false} DelThenGet(w: World, codec: Codec, key: string, value: Value)
    requires LoadStep(w.state, w.disk, codec).reply.None?
    ensures Run(w, codec, [Set(key, value), Del(key), Get(key)]).replies
      == [Signal(None), Signal(None), Fetched(Success(Null))]
  {
    var calls := [Set(key, value), Del(key), Get(key)];
    var r0 := Apply(w, codec, calls[0]);
    var w1 := World(r0.state, r0.disk);
    var r1 := Apply(w1, codec, Del(key));
    var w2 := World(r1.state, r1.disk);
    var r2 := Apply(w2, codec, Get(key));
    assert calls[1..] == [Del(key), Get(key)];
    assert calls[1..][1..] == [Get(key)];
    assert [Get(key)][1..] == [];
    assert Run(w2, codec, [Get(key)]).replies == [r2.reply];
    assert Run(w1, codec, [Del(key), Get(key)]).replies == [r1.reply, r2.reply];
  }

  /** `use(p)` discards the cached data: the next `get()` or `get(k)` reports what loading `p` afresh gives. */
  lemma UseForcesReload(w: World, codec: Codec, p: Path, key: string)
    ensures var t := Run(w, codec, [Use(p), GetAll]);
      && t.fileReads == 1
      && t.replies[1] == Everything(GetAllStep(State(Some(p), false, map[]), w.disk, codec).reply)
    ensures var t := Run(w, codec, [Use(p), Get(key)]);
      && t.fileReads == 1
      && t.replies[1] == Fetched(GetStep(State(Some(p), false, map[]), w.disk, codec, key).reply)
  {
  }

  /**
   * With a codec that round-trips, data that `save` wrote is what a
   * following `use` of the same path loads back.
   */
  lemma {:induction false} SaveThenReload(w: World, codec: Codec, p: Path)
    requires RoundTrips(codec)
    requires w.state.source == Some(p)
    requires LoadStep(w.state, w.disk, codec).reply.None?
    ensures var t := Run(w, codec, [Save, Use(p), GetAll]);
      t.replies[0] == Signal(None) ==>
        t.replies[2] == Everything(Some(LoadStep(w.state, w.disk, codec).state.data))
  {
    var data := LoadStep(w.state, w.disk, codec).state.data;
    var calls := [Save, Use(p), GetAll];
    var r0 := Apply(w, codec, Save);
    var w1 := World(r0.state, r0.disk);
    var w2 := World(UseStep(r0.state, p), r0.disk);
    var r2 := Apply(w2, codec, GetAll);
    assert calls[1..] == [Use(p), GetAll];
    assert calls[1..][1..] == [GetAll];
    assert [GetAll][1..] == [];
    assert Run(w2, codec, [GetAll]).replies == [r2.reply];
    assert Run(w1, codec, [Use(p), GetAll]).replies == [Chained, r2.reply];
    if r0.reply == Signal(None) {
      var text := codec.encode(data);
      assert text != "" && codec.decode(text) == Some(data);
      assert Read(r0.disk, p) == Success(text);
    }
  }

  /** After `destroy` succeeds, a `use` of the same path loads the empty data set without error. */
  lemma {:induction false} DestroyThenReload(w: World, codec: Codec, p: Path)
    requires w.state.source == Some(p)
    requires LoadStep(w.state, w.disk, codec).reply.None?
    ensures var t := Run(w, codec, [Destroy, Use(p), GetAll]);
      t.replies[0] == Signal(None) ==> t.replies[2] == Everything(Some(map[]))
  {
    var calls := [Destroy, Use(p), GetAll];
    var r0 := Apply(w, codec, Destroy);
    var w1 := World(r0.state, r0.disk);
    var w2 := World(UseStep(r0.state, p), r0.disk);
    var r2 := Apply(w2, codec, GetAll);
    assert calls[1..] == [Use(p), GetAll];
    assert calls[1..][1..] == [GetAll];
    assert [GetAll][1..] == [];
    assert Run(w2, codec, [GetAll]).replies == [r2.reply];
    assert Run(w1, codec, [Use(p), GetAll]).replies == [Chained, r2.reply];
  }

  /** `destroy` does not close the gate: without a `use`, the data stays readable after the file is gone. */
  lemma DestroyKeepsMemory(w: World, codec: Codec)
    requires LoadStep(w.state, w.disk, codec).reply.None?
    ensures Run(w, codec, [Destroy, GetAll]).replies[1]
      == Everything(Some(LoadStep(w.state, w.disk, codec).state.data))
  {
  }
}
