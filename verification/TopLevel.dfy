/** Arguments and results: what the typed top-level records and the shared
    files add to the round trip of nested values. */
module TopLevel {
  import opened Framing
  import opened Wrappers
  import opened Wire
  import opened Values
  import opened Trips
  import opened Shm
  import opened Dispatch
  import opened Messages
  import F = Filter
  import R = RowMajor

  const INT64: nat := 0x8000_0000_0000_0000

  // ---------------------------------------------------------------- typed records

  // A scalar, list, dict or name through the host's record.
  lemma HostRecord(lib: Lib, records: Records, kind: string, value: Json)
    requires Parses(value) && kind != "ndarray" && (value.JNull? ==> kind == "scalar")
    ensures var a := Arg(kind, MapNum(Round, value), 0, [], "", "");
            && FromJson(Typed(kind, value)) == Some(a)
            && var w, t := ToJson(lib, a), MapNum(Travelling(lib), Typed(kind, value));
            && (Reads(records, w) <==> Reads(records, t))
            && (Reads(records, w) ==> Deser(records, w) == Deser(records, t))
  {
    hide Parses, Reads, Deser, FromJson, ToJson;
    TypedTravels(Travelling(lib), kind, value);
    MapNumTwice(Round, Rendering(lib), Travelling(lib), value);
    Unmarshalled(kind, value);
    var a := Arg(kind, MapNum(Round, value), 0, [], "", "");
    if value.JNull? {
      NullRead(lib, records);
      ReadScalar(records, JNull);
    } else {
      TaggedRecord(lib, a);
    }
  }

  // A record without a value reads as None.
  lemma NullRead(lib: Lib, records: Records)
    ensures var w := ToJson(lib, Arg("scalar", JNull, 0, [], "", ""));
            Reads(records, w) && Deser(records, w) == PyNone
  {
    var f := ToJson(lib, Arg("scalar", JNull, 0, [], "", "")).fields;
    assert Field(f, "type") == JStr("scalar") && Field(f, "value") == JNull;
  }

  lemma TaggedRecord(lib: Lib, a: Arg)
    requires !a.value.JNull? && a == Arg(a.kind, a.value, 0, [], "", "")
    ensures ToJson(lib, a) == Typed(a.kind, MapNum(Rendering(lib), a.value))
  {
    hide MapNum;
    assert ToJson(lib, a).fields == Typed(a.kind, MapNum(Rendering(lib), a.value)).fields;
  }

  lemma Unmarshalled(kind: string, value: Json)
    ensures FromJson(Typed(kind, value)) ==
            if Parses(value) then Some(Arg(kind, MapNum(Round, value), 0, [], "", "")) else None
  {
    TypedTravels(Round, kind, value);
    hide Parses, MapNum;
    var f := Typed(kind, value).fields;
    assert Field(f, "type") == JStr(kind) && Field(f, "value") == value;
    assert Field(f, "shm_handle") == Field(f, "shape") == Field(f, "dtype") == Field(f, "b64") == JNull;
  }

  // A leaf other than an array is written as a tagged text.
  ghost predicate TagsText(leaves: Leaves, v: PyVal) {
    IsLeaf(v) && leaves([], v).Some? ==> exists k, s :: k != "ndarray" && leaves([], v) == Some(Typed(k, JStr(s)))
  }

  // Values other than arrays are written as one tag and one payload.
  lemma TaggedForm(leaves: Leaves, pos: Pos, v: PyVal) returns (kind: string, value: Json)
    requires Sends(leaves, pos, v) && !v.PyArray? && pos == []
    requires TagsText(leaves, v)
    ensures Ser(leaves, pos, v) == Typed(kind, value)
    ensures kind != "ndarray" && (value.JNull? ==> kind == "scalar")
  {
    if IsLeaf(v) {
      var k, s :| k != "ndarray" && leaves(pos, v) == Some(Typed(k, JStr(s)));
      kind, value := k, JStr(s);
    } else {
      var f := Ser(leaves, pos, v).fields;
      kind, value := f["type"].s, f["value"];
    }
  }

  // Such a value makes the trip as it does inside another.
  lemma PlainTrip(lib: Lib, leaves: Leaves, records: Records, v: PyVal)
    requires Sends(leaves, [], v) && !v.PyArray?
    requires TagsText(leaves, v)
    ensures var j := Ser(leaves, [], v);
            && (FromJson(j).Some? <==> Parses(j))
            && (Parses(j) ==>
                  && var a := FromJson(j).value;
                  && a.kind != "ndarray"
                  && (Arrived(lib, records, a, v) <==> Same(lib, records, j, v)))
  {
    hide Reads, Deser;
    var kind, value := TaggedForm(leaves, [], v);
    Unmarshalled(kind, value);
    TypedTravels(Round, kind, value);
    if Parses(value) {
      HostRecord(lib, records, kind, value);
    }
  }

  // The reader makes the value out of the record.
  ghost predicate Arrived(lib: Lib, records: Records, a: Arg, v: PyVal) {
    Reads(records, ToJson(lib, a)) && Norm(Deser(records, ToJson(lib, a))) == Norm(v)
  }

  // That is: what is read is the normal form of the value.
  lemma ArrivedIs(lib: Lib, files: map<string, File>, a: Arg, v: PyVal)
    ensures var records, w := WorkerRecords(lib, files), ToJson(lib, a);
            Arrived(lib, records, a, v) <==> Reads(records, w) && Deser(records, w) == Norm(v)
    ensures var records, w := ShimRecords(lib), ToJson(lib, a);
            Arrived(lib, records, a, v) <==> Reads(records, w) && Deser(records, w) == Norm(v)
  {
    RecordsNormal(lib, files);
    hide Reads, Deser, Norm, ToJson;
    var w := ToJson(lib, a);
    if Reads(WorkerRecords(lib, files), w) {
      ReadNormal(WorkerRecords(lib, files), w);
    }
    if Reads(ShimRecords(lib), w) {
      ReadNormal(ShimRecords(lib), w);
    }
  }

  lemma RecordsNormal(lib: Lib, files: map<string, File>)
    ensures NormalRecords(WorkerRecords(lib, files)) && NormalRecords(ShimRecords(lib))
  {
    var mine, theirs := ShimRecords(lib), WorkerRecords(lib, files);
    forall f | mine(f).Some? ensures Norm(mine(f).value) == mine(f).value {
      RawNormal(Field(f, "value"));
    }
    forall f | theirs(f).Some? ensures Norm(theirs(f).value) == theirs(f).value {
      if Field(f, "type") != JStr("bridge_ref") {
        var path, shape := Get(f, "value", JStr("")), Get(f, "shape", JList([]));
        var dtype := Get(f, "dtype", JStr("float64"));
        assert theirs(f) == FromBuffer(lib, Readable(files, path.s).value, Nats(shape).value, dtype.s);
      }
    }
  }

  // ---------------------------------------------------------------- arguments

  // What survives inside an argument: names the worker resolves, no arrays.
  predicate NestedArg(lib: Lib, v: PyVal) { v.PyProxy? && lib.resolves(v.name) }

  function NestedArgs(lib: Lib): PyVal -> bool { v => NestedArg(lib, v) }

  predicate WellFormed(lib: Lib, v: PyVal)
    requires v.PyArray?
  {
    && lib.itemSize(v.dtype).Some? && |v.data| == R.Prod(v.shape) * lib.itemSize(v.dtype).value
    && forall k | 0 <= k < |v.shape| :: v.shape[k] < INT64
  }

  // The arguments that reach the worker as they are: at top level well-formed
  // non-empty arrays; else numbers that survive, names, text, lists and
  // string-keyed dicts of those.
  predicate Fits(lib: Lib, v: PyVal) {
    if v.PyArray? then v.data != [] && WellFormed(lib, v)
    else Faithful(lib, NestedArgs(lib), v)
  }

  lemma ArgLeaves(lib: Lib, files: map<string, File>)
    ensures LeavesAre(lib, ShimLeaves(lib), WorkerRecords(lib, files), NestedArgs(lib))
  {
    forall pos, v | IsLeaf(v)
      ensures Good(lib, ShimLeaves(lib), WorkerRecords(lib, files), pos, v) <==> NestedArg(lib, v)
    {
      hide Parses, Reads, Deser, MapNum, WorkerRecords, Good;
      LeafTrip(lib, ShimLeaves(lib), WorkerRecords(lib, files), pos, v);
      match v
      case PyArray(data, shape, dtype) => InlineArrayUnread(lib, files, data, shape, dtype);
      case PyProxy(name, text) => NameRead(lib, files, name);
      case PyModule(_) =>
      case PyCallable(_) =>
    }
  }

  lemma NameRead(lib: Lib, files: map<string, File>, name: string)
    ensures var j, records := Typed("bridge_ref", JStr(name)), WorkerRecords(lib, files);
            && Parses(j) && MapNum(Travelling(lib), j) == j
            && (Reads(records, j) <==> lib.resolves(name))
            && (Reads(records, j) ==> Deser(records, j) == PyProxy(name, ""))
  {
    TypedTravels(Travelling(lib), "bridge_ref", JStr(name));
    var f := Typed("bridge_ref", JStr(name)).fields;
    assert Field(f, "type") == JStr("bridge_ref") && Get(f, "value", JStr("")) == JStr(name);
  }

  // An inline array that is not at top level has no path: the worker raises.
  lemma InlineArrayUnread(lib: Lib, files: map<string, File>, data: bytes, shape: seq<nat>, dtype: string)
    ensures var j := ShimLeaves(lib)([], PyArray(data, shape, dtype)).value;
            !Reads(WorkerRecords(lib, files), MapNum(Travelling(lib), j))
  {
    var j := ShimLeaves(lib)([], PyArray(data, shape, dtype)).value;
    var w := MapNum(Travelling(lib), j);
    assert j.fields["type"] == JStr("ndarray");
    assert w.fields["type"] == MapNum(Travelling(lib), j.fields["type"]) && "value" !in w.fields;
    assert Field(w.fields, "type") == JStr("ndarray") && Get(w.fields, "value", JStr("")) == JStr("");
    assert WorkerRecords(lib, files)(w.fields).None?;
  }

  // An array goes to the worker as the path of a block.
  lemma ArrayRecord(lib: Lib, v: PyVal)
    requires v.PyArray?
    ensures var j := Ser(ShimLeaves(lib), [], v);
            && (FromJson(j).Some? <==> forall k | 0 <= k < |v.shape| :: v.shape[k] < INT64)
            && (FromJson(j).Some? ==>
                  FromJson(j).value == Arg("ndarray", JNull, 0, v.shape, v.dtype, lib.encode64(v.data)))
  {
    var f := Ser(ShimLeaves(lib), [], v).fields;
    assert f["type"] == JStr("ndarray") && f["b64"] == JStr(lib.encode64(v.data));
    assert f["shape"] == Ints(v.shape) && f["dtype"] == JStr(v.dtype);
    assert Field(f, "value") == JNull && Field(f, "shm_handle") == JNull;
    IntsRead(v.shape);
    if forall k | 0 <= k < |v.shape| :: v.shape[k] < INT64 {
      IntsParse(v.shape);
      assert f.Keys == {"type", "b64", "shape", "dtype"};
      assert Parses(Ser(ShimLeaves(lib), [], v));
    }
  }

  lemma IntsParse(shape: seq<nat>)
    requires forall k | 0 <= k < |shape| :: shape[k] < INT64
    ensures Parses(Ints(shape))
  {
    forall k | 0 <= k < |shape| ensures Parses(Ints(shape).items[k]) {
      InRange(shape[k]);
    }
  }

  lemma IntsRead(shape: seq<nat>)
    ensures Nats(Ints(shape)) == Some(shape)
    ensures AsInts(Ints(shape)) == if forall k | 0 <= k < |shape| :: shape[k] < INT64 then Some(shape) else None
  {
    var items := Ints(shape).items;
    assert forall k | 0 <= k < |shape| :: items[k] == JNum(shape[k] as real);
    assert forall k | 0 <= k < |shape| :: (shape[k] as real).Floor == shape[k];
    assert forall k | 0 <= k < |shape| :: AsInt(items[k]) == if shape[k] < INT64 then Some(shape[k]) else None;
    assert Nats(Ints(shape)).Some? && Nats(Ints(shape)).value == shape;
    if k :| 0 <= k < |shape| && shape[k] >= INT64 {
      assert AsInt(items[k]).None?;
    } else {
      assert AsInts(Ints(shape)).Some? && AsInts(Ints(shape)).value == shape;
    }
  }

  function DtypeOr(dtype: string): string { if dtype == "" then "float64" else dtype }

  // The worker reads an array record from the file it names.
  lemma ArrayRead(lib: Lib, files: map<string, File>, out: Arg, data: bytes)
    requires out == Arg("ndarray", out.value, out.shmHandle, out.shape, out.dtype, "")
    requires out.value.JStr? && out.value.s != "" && Readable(files, out.value.s) == Some(data)
    requires forall k | 0 <= k < |out.shape| :: out.shape[k] >= 0
    ensures var records, w := WorkerRecords(lib, files), ToJson(lib, out);
            var got := FromBuffer(lib, data, out.shape, DtypeOr(out.dtype));
            && (Reads(records, w) <==> got.Some?)
            && (Reads(records, w) ==> Deser(records, w) == got.value)
  {
    hide WorkerRecords, FromBuffer, Nats, ToJson, Reads, Deser;
    ArrayFound(lib, files, out, data);
    Marshalled(lib, out, JNull);
    ReadRecord(WorkerRecords(lib, files), ToJson(lib, out));
  }

  lemma ShapeRead(shape: seq<nat>)
    ensures Nats(if shape == [] then JList([]) else Ints(shape)) == Some(shape)
  {
    IntsRead(shape);
    if shape == [] {
      assert Nats(JList([])).value == [];
    }
  }

  lemma ArrayFound(lib: Lib, files: map<string, File>, out: Arg, data: bytes)
    requires out == Arg("ndarray", out.value, out.shmHandle, out.shape, out.dtype, "")
    requires out.value.JStr? && out.value.s != "" && Readable(files, out.value.s) == Some(data)
    requires forall k | 0 <= k < |out.shape| :: out.shape[k] >= 0
    ensures WorkerRecords(lib, files)(ToJson(lib, out).fields) == FromBuffer(lib, data, out.shape, DtypeOr(out.dtype))
  {
    var f := ToJson(lib, out).fields;
    Marshalled(lib, out, JNull);
    Marshalled(lib, out, JStr(""));
    Marshalled(lib, out, JStr("float64"));
    Marshalled(lib, out, JList([]));
    hide ToJson, Get;
    assert MapNum(Rendering(lib), out.value) == out.value;
    ShapeRead(out.shape);
    hide Nats, FromBuffer, Ints, Reads, Deser;
    assert WorkerRecords(lib, files)(f) == FromBuffer(lib, data, out.shape, DtypeOr(out.dtype));
  }

  // ---------------------------------------------------------------- arguments, exactly

  // An argument the host has taken and passed on reaches the worker as the value
  // it was exactly when it fits, whatever the other arguments are.
  lemma ArgumentTrip(lib: Lib, host: Host, before: map<string, File>, blocks: map<nat, Block>,
                     files: map<string, File>, v: PyVal, out: Arg)
    requires lib.Sound() && !host.devShm.OtherKind?
    requires Holds(host, before, files, blocks)
    requires Sends(ShimLeaves(lib), [], v) && FromJson(Ser(ShimLeaves(lib), [], v)).Some?
    requires Passed(lib, host, blocks, files, FromJson(Ser(ShimLeaves(lib), [], v)).value, out)
    ensures Arrived(lib, WorkerRecords(lib, files), out, v) <==> Fits(lib, v)
  {
    if v.PyArray? {
      ArrayArgument(lib, host, before, blocks, files, v, out);
    } else {
      PassedPlain(lib, host, blocks, files, FromJson(Ser(ShimLeaves(lib), [], v)).value, out);
      ArgTagsText(lib, v);
      hide Ser, Sends, Parses, Holds, Faithful, Passed, Same, Arrived, FromJson, LeavesAre, TagsText;
      ArgLeaves(lib, files);
      TripExact(lib, ShimLeaves(lib), WorkerRecords(lib, files), NestedArgs(lib), [], v);
      PlainTrip(lib, ShimLeaves(lib), WorkerRecords(lib, files), v);
    }
  }

  lemma ArgTagsText(lib: Lib, v: PyVal)
    requires !v.PyArray?
    ensures TagsText(ShimLeaves(lib), v)
  {
    if v.PyProxy? {
      assert ShimLeaves(lib)([], v) == Some(Typed("bridge_ref", JStr(v.name)));
    }
  }

  lemma PassedPlain(lib: Lib, host: Host, blocks: map<nat, Block>, files: map<string, File>, a: Arg, out: Arg)
    requires Passed(lib, host, blocks, files, a, out)
    ensures a.kind != NDARRAY ==> out == a
  {
  }

  lemma ArrayArgument(lib: Lib, host: Host, before: map<string, File>, blocks: map<nat, Block>,
                      files: map<string, File>, v: PyVal, out: Arg)
    requires lib.Sound() && !host.devShm.OtherKind?
    requires Holds(host, before, files, blocks)
    requires v.PyArray? && FromJson(Ser(ShimLeaves(lib), [], v)).Some?
    requires Passed(lib, host, blocks, files, FromJson(Ser(ShimLeaves(lib), [], v)).value, out)
    ensures Arrived(lib, WorkerRecords(lib, files), out, v) <==> Fits(lib, v)
  {
    hide Reads, Deser, ToJson, FromJson, Ser, Parses, Faithful;
    ArrayRecord(lib, v);
    var a := FromJson(Ser(ShimLeaves(lib), [], v)).value;
    var h := if a.b64 != "" then U32Of(out.shmHandle) else U32Of(a.shmHandle);
    assert h in blocks;
    PathsAgree(host, blocks[h].name);
    var data := files[host.BlockPath(blocks[h].name)].content;
    ArrayRead(lib, files, out, data);
    assert v.data != [] ==> data == v.data;
  }

  // What fits is sent: no other error is possible on the shim's side or in the
  // host's parser.
  lemma FitIsTaken(lib: Lib, v: PyVal)
    requires lib.Sound() && Fits(lib, v)
    ensures Sends(ShimLeaves(lib), [], v) && FromJson(Ser(ShimLeaves(lib), [], v)).Some?
  {
    if v.PyArray? {
      ArrayRecord(lib, v);
    } else {
      ArgTagsText(lib, v);
      hide Reads, Deser, Ser, Parses, MapNum, FromJson, Faithful, Same, LeavesAre, Sends, Arrived, TagsText;
      ArgLeaves(lib, map[]);
      TripExact(lib, ShimLeaves(lib), WorkerRecords(lib, map[]), NestedArgs(lib), [], v);
      PlainTrip(lib, ShimLeaves(lib), WorkerRecords(lib, map[]), v);
    }
  }

  // ---------------------------------------------------------------- results

  // What survives inside a result: empty arrays. (The bytes of any other stay
  // behind in the worker's file.)
  predicate NestedResult(lib: Lib, v: PyVal) {
    v.PyArray? && v.data == [] && forall k | 0 <= k < |v.shape| :: Survives(lib, v.shape[k] as real)
  }

  function NestedResults(lib: Lib): PyVal -> bool { v => NestedResult(lib, v) }

  lemma LeafMeaning(lib: Lib, v: PyVal)
    ensures NestedResult(lib, v) <==>
            v.PyArray? && v.data == [] && forall k | 0 <= k < |v.shape| :: Survives(lib, v.shape[k] as real)
  {
  }

  predicate Returns(lib: Lib, v: PyVal) {
    if v.PyArray? then v.dtype != "" && forall k | 0 <= k < |v.shape| :: v.shape[k] < INT64
    else Faithful(lib, NestedResults(lib), v)
  }

  lemma ResultLeaves(lib: Lib, path: Pos -> string)
    ensures LeavesAre(lib, WorkerLeaves(path), ShimRecords(lib), NestedResults(lib))
  {
    hide Parses, Reads, Deser, MapNum, ShimRecords, Good, NestedResult;
    forall pos, v | IsLeaf(v)
      ensures Good(lib, WorkerLeaves(path), ShimRecords(lib), pos, v) <==> NestedResult(lib, v)
    {
      LeafMeaning(lib, v);
      LeafTrip(lib, WorkerLeaves(path), ShimRecords(lib), pos, v);
      match v
      case PyArray(data, shape, dtype) =>
        PathArrayRead(lib, path(pos), data, shape, dtype);
        assert WorkerLeaves(path)(pos, v) == Some(PathRecord(path(pos), Ints(shape), dtype));
      case PyProxy(_, text) => TextRead(lib, text, v);
      case PyModule(text) => TextRead(lib, text, v);
      case PyCallable(text) => TextRead(lib, text, v);
    }
  }

  lemma TextRead(lib: Lib, text: string, v: PyVal)
    requires v.PyProxy? || v.PyModule? || v.PyCallable?
    ensures !Same(lib, ShimRecords(lib), Typed("scalar", JStr(text)), v)
  {
    TypedTravels(Travelling(lib), "scalar", JStr(text));
    ReadScalar(ShimRecords(lib), JStr(text));
  }

  function PathRecord(path: string, shape: Json, dtype: string): Json {
    JObj(map["type" := JStr("ndarray"), "value" := JStr(path), "shape" := shape, "dtype" := JStr(dtype)])
  }

  lemma RecordTravels(f: real -> real, path: string, shape: Json, dtype: string)
    ensures MapNum(f, PathRecord(path, shape, dtype)) == PathRecord(path, MapNum(f, shape), dtype)
    ensures Parses(PathRecord(path, shape, dtype)) <==> Parses(shape)
  {
    var m := PathRecord(path, shape, dtype).fields;
    assert m["type"] == JStr("ndarray") && m["value"] == JStr(path) && m["shape"] == shape && m["dtype"] == JStr(dtype);
    assert m.Keys == {"type", "value", "shape", "dtype"};
    assert MapNum(f, JStr("ndarray")) == JStr("ndarray") && MapNum(f, JStr(path)) == JStr(path)
           && MapNum(f, JStr(dtype)) == JStr(dtype);
    assert MapNum(f, PathRecord(path, shape, dtype)).fields == PathRecord(path, MapNum(f, shape), dtype).fields;
  }

  // An array record by path, read on the shim: no bytes.
  lemma PathArrayRead(lib: Lib, path: string, data: bytes, shape: seq<nat>, dtype: string)
    ensures var j := PathRecord(path, Ints(shape), dtype);
            Parses(j) && Same(lib, ShimRecords(lib), j, PyArray(data, shape, dtype))
            <==> data == [] && forall k | 0 <= k < |shape| :: Survives(lib, shape[k] as real)
  {
    RecordTravels(Travelling(lib), path, Ints(shape), dtype);
    var dims := MapNum(Travelling(lib), Ints(shape));
    ShapeTravels(lib, shape);
    NoBytes(lib, path, dims, dtype);
    hide Reads, Deser, MapNum, Parses, ShimRecords, Survives;
  }

  lemma NoBytes(lib: Lib, path: string, dims: Json, dtype: string)
    ensures var records, w := ShimRecords(lib), PathRecord(path, dims, dtype);
            && (Reads(records, w) <==> Nats(dims).Some?)
            && (Reads(records, w) ==> Deser(records, w) == PyArray([], Nats(dims).value, dtype))
  {
    var f := PathRecord(path, dims, dtype).fields;
    assert Field(f, "type") == JStr("ndarray") && Get(f, "b64", JStr("")) == JStr("");
    assert Get(f, "dtype", JStr("float64")) == JStr(dtype) && Get(f, "shape", JList([])) == dims;
  }

  lemma ShapeTravels(lib: Lib, shape: seq<nat>)
    ensures Parses(Ints(shape)) && Nats(MapNum(Travelling(lib), Ints(shape))) == Some(shape)
            <==> forall k | 0 <= k < |shape| :: Survives(lib, shape[k] as real)
  {
    var js := Ints(shape).items;
    var ws := seq(|js|, k requires 0 <= k < |js| => MapNum(Travelling(lib), js[k]));
    assert MapNum(Travelling(lib), Ints(shape)) == JList(ws);
    assert forall k | 0 <= k < |shape| :: js[k] == JNum(shape[k] as real);
    assert forall k | 0 <= k < |shape| :: ws[k] == JNum(Travel(lib, shape[k] as real));
    assert Parses(Ints(shape)) <==> forall k | 0 <= k < |shape| :: Parses(js[k]);
    NatsAre(ws, shape);
    hide Parses, MapNum, Travel, Nats;
  }

  lemma NatsAre(ws: seq<Json>, shape: seq<nat>)
    requires |ws| == |shape| && forall k | 0 <= k < |ws| :: ws[k].JNum?
    ensures Nats(JList(ws)) == Some(shape) <==> forall k | 0 <= k < |shape| :: ws[k] == JNum(shape[k] as real)
  {
    var r := Nats(JList(ws));
    if r == Some(shape) {
      forall k | 0 <= k < |shape| ensures ws[k] == JNum(shape[k] as real) {
        assert r.value[k] == shape[k] && Integral(ws[k].x);
      }
    }
    if forall k | 0 <= k < |shape| :: ws[k] == JNum(shape[k] as real) {
      assert forall k | 0 <= k < |shape| :: (shape[k] as real).Floor == shape[k];
      assert r.Some? && r.value == shape;
    }
  }

  // JSON can write the result: it has no dict key that is neither text nor number
  // nor bool nor None.
  predicate Writable(path: Pos -> string, v: PyVal) {
    Sends(WorkerLeaves(path), [], v)
  }

  function ResultJson(path: Pos -> string, v: PyVal): Json
    requires Writable(path, v)
  {
    Ser(WorkerLeaves(path), [], v)
  }

  // A result the host has taken reaches the shim as the value it was exactly
  // when it can return; an array with its bytes, whatever they are.
  lemma ResultTrip(lib: Lib, path: Pos -> string, v: PyVal, files: map<string, File>)
    requires lib.Sound() && Writable(path, v) && FromJson(ResultJson(path, v)).Some?
    requires v.PyArray? ==> path([]) != "" && Readable(files, path([])) == Some(v.data)
    ensures var resp := ResponseTo(lib, Outcome(Some(Returned(FromJson(ResultJson(path, v)))), files));
            && resp.Success? && resp.value.Some?
            && (Arrived(lib, ShimRecords(lib), resp.value.value, v) <==> Returns(lib, v))
  {
    if v.PyArray? {
      ArrayResult(lib, path, v, files);
    } else {
      PlainResult(lib, path, v);
    }
    hide ResultJson, Arrived, Returns, FromJson, Readable, Writable;
  }

  lemma PlainResult(lib: Lib, path: Pos -> string, v: PyVal)
    requires lib.Sound() && Writable(path, v) && FromJson(ResultJson(path, v)).Some? && !v.PyArray?
    ensures var a := FromJson(ResultJson(path, v)).value;
            a.kind != "ndarray" && (Arrived(lib, ShimRecords(lib), a, v) <==> Returns(lib, v))
  {
    hide Ser, Parses, Faithful, Same, Arrived, FromJson, LeavesAre, Reads, Deser, TagsText;
    ResultTagsText(path, v);
    ResultLeaves(lib, path);
    TripExact(lib, WorkerLeaves(path), ShimRecords(lib), NestedResults(lib), [], v);
    PlainTrip(lib, WorkerLeaves(path), ShimRecords(lib), v);
  }

  lemma ResultTagsText(path: Pos -> string, v: PyVal)
    requires !v.PyArray?
    ensures TagsText(WorkerLeaves(path), v)
  {
    if IsLeaf(v) {
      assert WorkerLeaves(path)([], v) == Some(Typed("scalar", JStr(v.text)));
    }
  }

  lemma ArrayResult(lib: Lib, path: Pos -> string, v: PyVal, files: map<string, File>)
    requires lib.Sound() && v.PyArray? && Writable(path, v) && FromJson(ResultJson(path, v)).Some?
    requires path([]) != "" && Readable(files, path([])) == Some(v.data)
    ensures var a := Arg(NDARRAY, JNull, 0, v.shape, v.dtype, lib.encode64(v.data));
            && ResponseTo(lib, Outcome(Some(Returned(FromJson(ResultJson(path, v)))), files)) == Success(Some(a))
            && (Arrived(lib, ShimRecords(lib), a, v) <==> Returns(lib, v))
  {
    ArrayJson(path, v);
    hide ResultJson, FromJson, Reads, Deser;
    PathTaken(path([]), v);
    InlineArrives(lib, Arg(NDARRAY, JNull, 0, v.shape, v.dtype, lib.encode64(v.data)), v);
  }

  lemma InlineArrives(lib: Lib, a: Arg, v: PyVal)
    requires lib.Sound() && v.PyArray?
    requires a == Arg(NDARRAY, JNull, 0, v.shape, v.dtype, lib.encode64(v.data))
    ensures Arrived(lib, ShimRecords(lib), a, v) <==> v.dtype != ""
  {
    hide ShimRecords, Reads, Deser, ToJson;
    InlineFound(lib, a, v);
    Marshalled(lib, a, JNull);
    ReadRecord(ShimRecords(lib), ToJson(lib, a));
  }

  lemma ArrayJson(path: Pos -> string, v: PyVal)
    requires v.PyArray?
    ensures Writable(path, v) && ResultJson(path, v) == PathRecord(path([]), Ints(v.shape), v.dtype)
  {
  }

  lemma ReadRecord(records: Records, w: Json)
    requires w.JObj? && Field(w.fields, "type") == JStr("ndarray")
    ensures Reads(records, w) <==> records(w.fields).Some?
    ensures Reads(records, w) ==> Deser(records, w) == records(w.fields).value
  {
  }

  // The host's record of a worker array.
  lemma PathTaken(path: string, v: PyVal)
    requires v.PyArray?
    ensures var j := PathRecord(path, Ints(v.shape), v.dtype);
            && (FromJson(j).Some? <==> forall k | 0 <= k < |v.shape| :: v.shape[k] < INT64)
            && (FromJson(j).Some? ==> FromJson(j).value == Arg(NDARRAY, JStr(path), 0, v.shape, v.dtype, ""))
  {
    hide Parses, AsInts, Nats, Ints, Integral;
    RecordTravels(Round, path, Ints(v.shape), v.dtype);
    IntsRead(v.shape);
    if forall k | 0 <= k < |v.shape| :: v.shape[k] < INT64 {
      IntsParse(v.shape);
    }
    var f := PathRecord(path, Ints(v.shape), v.dtype).fields;
    assert f["type"] == JStr("ndarray") && f["value"] == JStr(path) && f["shape"] == Ints(v.shape)
           && f["dtype"] == JStr(v.dtype);
    assert Field(f, "shm_handle") == JNull && Field(f, "b64") == JNull;
  }

  // The shim reads the inline bytes back.
  lemma InlineFound(lib: Lib, a: Arg, v: PyVal)
    requires lib.Sound() && v.PyArray?
    requires a == Arg(NDARRAY, JNull, 0, v.shape, v.dtype, lib.encode64(v.data))
    ensures ShimRecords(lib)(ToJson(lib, a).fields) == Some(PyArray(v.data, v.shape, DtypeOr(v.dtype)))
  {
    var f := ToJson(lib, a).fields;
    Marshalled(lib, a, JNull);
    Marshalled(lib, a, JStr(""));
    Marshalled(lib, a, JStr("float64"));
    Marshalled(lib, a, JList([]));
    hide ToJson, Get;
    ShapeRead(v.shape);
    hide Nats, Ints;
    assert lib.decode64(lib.encode64(v.data)) == Some(v.data);
  }

  // Records of any other type than these are read as their raw value.
  lemma OthersReadRaw(lib: Lib, files: map<string, File>, kind: string, value: Json)
    requires kind !in {"list", "dict", "ndarray"}
    ensures var records, j := ShimRecords(lib), Typed(kind, value);
            Reads(records, j) && Deser(records, j) == Raw(value)
    ensures kind != "bridge_ref" ==>
              var records, j := WorkerRecords(lib, files), Typed(kind, value);
              Reads(records, j) && Deser(records, j) == Raw(value)
  {
    var f := Typed(kind, value).fields;
    assert Field(f, "type") == JStr(kind) && Field(f, "value") == value;
  }

  // ---------------------------------------------------------------- probes

  // The shim reads of a probe's response what the worker said of the target.
  ghost predicate TellsProbe(lib: Lib, resp: BridgeResponse, info: ProbeInfo) {
    && resp.Success? && resp.value.Some?
    && var w := ToJson(lib, resp.value.value);
    && Reads(ShimRecords(lib), w)
    && Deser(ShimRecords(lib), w) ==
       PyDict(map["is_module" := PyBool(info.isModule), "is_callable" := PyBool(info.isCallable)])
  }

  lemma ProbeRead(lib: Lib, info: ProbeInfo)
    ensures TellsProbe(lib, ProbeValue(info), info)
  {
    var a := ProbeValue(info).value.value;
    FlagsTravel(Rendering(lib), info);
    hide MapNum, Raw, Reads, Deser;
    TaggedRecord(lib, a);
    ReadScalar(ShimRecords(lib), a.value);
  }

  lemma FlagsTravel(f: real -> real, info: ProbeInfo)
    ensures var value := ProbeValue(info).value.value.value;
            && MapNum(f, value) == value
            && Raw(value) == PyDict(map["is_module" := PyBool(info.isModule), "is_callable" := PyBool(info.isCallable)])
  {
    var value := ProbeValue(info).value.value.value;
    assert MapNum(f, value).fields == value.fields;
    assert Raw(value).entries == map["is_module" := PyBool(info.isModule), "is_callable" := PyBool(info.isCallable)];
  }

  // A probe tells the shim what any worker says of its target, unless the cache
  // misses and the worker does not answer.
  lemma ProbeTells(lib: Lib, wk: Worker, answers: string -> ProbeInfo, cfg: F.Config, t: string,
                   args: seq<Arg>, kwargs: map<string, Arg>, cached: set<string>, resp: BridgeResponse,
                   site: Option<CallSite>)
    requires Served(lib, wk, answers, cfg, BridgeRequest(t + ".__probe__", args, kwargs), cached, resp, site)
    ensures if t in cached || wk.probe(t).Some? then TellsProbe(lib, resp, answers(t)) else resp == Failure(NoReply)
  {
    ProbeNames(t);
    ProbeRead(lib, answers(t));
  }

  // ---------------------------------------------------------------- what raises

  // Values of user code the shim refuses to send: module proxies, callables of its
  // own and dicts with keys JSON cannot write.
  predicate Unsendable(v: PyVal) { v.PyModule? || v.PyCallable? || HasBadKey(v) }

  lemma ArgumentRaises(lib: Lib, v: PyVal)
    ensures Sends(ShimLeaves(lib), [], v) <==> !Somewhere(Unsendable, v)
  {
    SendsUnless(ShimLeaves(lib), Unsendable, [], v);
  }

  // Of results only such dicts.
  lemma ResultRaises(path: Pos -> string, v: PyVal)
    ensures Writable(path, v) <==> !Somewhere(HasBadKey, v)
  {
    SendsUnless(WorkerLeaves(path), HasBadKey, [], v);
  }

  // A function, module or other object in a result arrives as its text, at any depth.
  lemma ObjectArrivesAsText(lib: Lib, path: Pos -> string, pos: Pos, v: PyVal)
    requires v.PyProxy? || v.PyModule? || v.PyCallable? || v.PyOther?
    ensures Sends(WorkerLeaves(path), pos, v)
    ensures var j := MapNum(Travelling(lib), Ser(WorkerLeaves(path), pos, v));
            Reads(ShimRecords(lib), j) && Deser(ShimRecords(lib), j) == PyStr(v.text)
  {
    TypedTravels(Travelling(lib), "scalar", JStr(v.text));
    ReadScalar(ShimRecords(lib), JStr(v.text));
  }
}
