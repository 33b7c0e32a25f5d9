/** Python values, and how the shim and the worker write and read them. */
module Values {
  import opened Framing
  import opened Wrappers
  import opened Wire
  import opened Shm
  import R = RowMajor

  // A dict key: text, something JSON writes as text (an int, a float, a bool or
  // None), or something it refuses.
  datatype DictKey = TextKey(s: string) | WrittenKey(s: string) | BadKey

  // A value at either end. A proxy is a bridged function, a module the proxy of a
  // bridged module or, on the worker, the module itself; they, callables and all
  // other objects carry the text str() gives. A dict with keys other than text is
  // kept in insertion order.
  datatype PyVal =
    | PyNone
    | PyBool(b: bool)
    | PyInt(i: int)
    | PyFloat(x: real)
    | PyNonFinite                      // nan, inf, -inf
    | PyStr(s: string)
    | PyList(items: seq<PyVal>)
    | PyTuple(items: seq<PyVal>)
    | PyDict(entries: map<string, PyVal>)
    | PyKeyed(pairs: seq<(DictKey, PyVal)>)
    | PyArray(data: bytes, shape: seq<nat>, dtype: string)
    | PyProxy(name: string, text: string)
    | PyModule(text: string)
    | PyCallable(text: string)
    | PyOther(text: string)

  // Values up to what the wire promises: numbers by value, tuples as lists,
  // objects without a wire form as their text.
  function Norm(v: PyVal): PyVal {
    match v
    case PyInt(i) => PyFloat(i as real)
    case PyList(items) => PyList(NormAll(items))
    case PyTuple(items) => PyList(NormAll(items))
    case PyDict(entries) => PyDict(map k | k in entries :: Norm(entries[k]))
    case PyProxy(name, _) => PyProxy(name, "")
    case PyOther(text) => PyStr(text)
    case _ => v
  }

  function NormAll(items: seq<PyVal>): seq<PyVal> {
    seq(|items|, i requires 0 <= i < |items| => Norm(items[i]))
  }

  // Where a value sits inside another.
  datatype Step = Index(i: nat) | Key(k: string)
  type Pos = seq<Step>

  // ---------------------------------------------------------------- writing

  // The wire form of the values the two sides treat differently, by position;
  // None where serialising raises.
  type Leaves = (Pos, PyVal) -> Option<Json>

  predicate IsLeaf(v: PyVal) { v.PyArray? || v.PyProxy? || v.PyModule? || v.PyCallable? }

  function Typed(kind: string, value: Json): Json {
    JObj(map["type" := JStr(kind), "value" := value])
  }

  // Serialising does not raise.
  predicate Sends(leaves: Leaves, pos: Pos, v: PyVal)
    decreases v
  {
    match v
    case PyList(items) => forall i | 0 <= i < |items| :: Sends(leaves, pos + [Index(i)], items[i])
    case PyTuple(items) => forall i | 0 <= i < |items| :: Sends(leaves, pos + [Index(i)], items[i])
    case PyDict(entries) => forall k <- entries :: Sends(leaves, pos + [Key(k)], entries[k])
    case PyKeyed(pairs) =>
      forall i | 0 <= i < |pairs| :: !pairs[i].0.BadKey? && Sends(leaves, pos + [Index(i)], pairs[i].1)
    case _ => IsLeaf(v) ==> leaves(pos, v).Some?
  }

  // _ser_one and _ser.
  function Ser(leaves: Leaves, pos: Pos, v: PyVal): Json
    requires Sends(leaves, pos, v)
    decreases v
  {
    match v
    case PyNone => Typed("scalar", JNull)
    case PyBool(b) => Typed("scalar", JBool(b))
    case PyInt(i) => Typed("scalar", JNum(i as real))
    case PyFloat(x) => Typed("scalar", JNum(x))
    case PyNonFinite => Typed("scalar", JNaN)
    case PyStr(s) => Typed("scalar", JStr(s))
    case PyOther(text) => Typed("scalar", JStr(text))
    case PyList(items) =>
      Typed("list", JList(seq(|items|, i requires 0 <= i < |items| => Ser(leaves, pos + [Index(i)], items[i]))))
    case PyTuple(items) =>
      Typed("list", JList(seq(|items|, i requires 0 <= i < |items| => Ser(leaves, pos + [Index(i)], items[i]))))
    case PyDict(entries) =>
      Typed("dict", JObj(map k | k in entries :: Ser(leaves, pos + [Key(k)], entries[k])))
    case PyKeyed(pairs) => Typed("dict", JObj(SerPairs(leaves, pos, v, |pairs|)))
    case _ => leaves(pos, v).value
  }

  // The first n pairs as a JSON object: of equal key texts the last one wins.
  function SerPairs(leaves: Leaves, pos: Pos, v: PyVal, n: nat): map<string, Json>
    requires v.PyKeyed? && n <= |v.pairs| && Sends(leaves, pos, v)
    decreases v, n
  {
    if n == 0 then map[]
    else SerPairs(leaves, pos, v, n - 1)[v.pairs[n - 1].0.s := Ser(leaves, pos + [Index(n - 1)], v.pairs[n - 1].1)]
  }

  // ---------------------------------------------------------------- reading

  // How a side reads an ndarray or a bridge_ref record; None where it raises.
  type Records = map<string, Json> -> Option<PyVal>

  // A raw JSON value as Python reads it.
  function Raw(j: Json): PyVal {
    match j
    case JNull => PyNone
    case JBool(b) => PyBool(b)
    case JNum(x) => PyFloat(x)
    case JNaN => PyNonFinite
    case JStr(s) => PyStr(s)
    case JList(items) => PyList(seq(|items|, i requires 0 <= i < |items| => Raw(items[i])))
    case JObj(fields) => PyDict(map k | k in fields :: Raw(fields[k]))
  }

  // Deserialising does not raise. Iterating over an empty string or object
  // yields nothing; over anything else that is no list, something unreadable.
  predicate Reads(records: Records, j: Json) {
    j.JNull? ||
    (j.JObj? &&
     var f := j.fields;
     var t := Field(f, "type");
     if t == JStr("list") then
       "value" in f ==>
         match f["value"]
         case JList(items) => forall i | 0 <= i < |items| :: Reads(records, items[i])
         case JStr(s) => s == ""
         case JObj(o) => o == map[]
         case _ => false
     else if t == JStr("dict") then
       "value" in f ==>
         match f["value"]
         case JObj(o) => forall k <- o :: Reads(records, o[k])
         case _ => false
     else if t == JStr("ndarray") || t == JStr("bridge_ref") then records(f).Some?
     else true)
  }

  // _deser_one and _deser.
  function Deser(records: Records, j: Json): PyVal
    requires Reads(records, j)
  {
    if j.JNull? then PyNone
    else
      var f := j.fields;
      var t := Field(f, "type");
      if t == JStr("list") then
        if "value" in f && f["value"].JList? then
          var items := f["value"].items;
          PyList(seq(|items|, i requires 0 <= i < |items| => Deser(records, items[i])))
        else PyList([])
      else if t == JStr("dict") then
        if "value" in f then
          var o := f["value"].fields;
          PyDict(map k | k in o :: Deser(records, o[k]))
        else PyDict(map[])
      else if t == JStr("ndarray") || t == JStr("bridge_ref") then records(f).value
      else Raw(Field(f, "value"))
  }

  // ---------------------------------------------------------------- the shim's side

  // _ser_array and the proxy and callable cases of _ser_one. A module proxy never
  // gets to its own case: the attribute tests before it find attributes, since
  // looking one up probes the worker and never ends in AttributeError; it is then
  // taken for an array, and its bytes, a bridged result, are refused.
  function ShimLeaves(lib: Lib): Leaves {
    (pos: Pos, v: PyVal) =>
      match v
      case PyArray(data, shape, dtype) =>
        Some(JObj(map["type" := JStr("ndarray"), "b64" := JStr(lib.encode64(data)),
                      "shape" := Ints(shape), "dtype" := JStr(dtype)]))
      case PyProxy(name, _) => Some(Typed("bridge_ref", JStr(name)))
      case _ => None
  }

  // _deser_tensor; the shim has no case for bridge_ref.
  function ShimRecords(lib: Lib): Records {
    (f: map<string, Json>) =>
      if Field(f, "type") == JStr("bridge_ref") then Some(Raw(Field(f, "value")))
      else
        var b64, dtype, shape := Get(f, "b64", JStr("")), Get(f, "dtype", JStr("float64")), Get(f, "shape", JList([]));
        if !b64.JStr? || !dtype.JStr? || Nats(shape).None? then None
        else
          var raw := if b64.s != "" then lib.decode64(b64.s) else Some([]);
          if raw.Some? then Some(PyArray(raw.value, Nats(shape).value, dtype.s)) else None
  }

  // A list of dimensions.
  function Nats(j: Json): Option<seq<nat>> {
    if j.JList? && forall i | 0 <= i < |j.items| :: j.items[i].JNum? && Integral(j.items[i].x) && j.items[i].x >= 0.0
    then Some(seq(|j.items|, i requires 0 <= i < |j.items| => j.items[i].x.Floor))
    else None
  }

  // ---------------------------------------------------------------- the worker's side

  // _ser_array: the bytes go to a fresh file; other objects as text.
  function WorkerLeaves(path: Pos -> string): Leaves {
    (pos: Pos, v: PyVal) =>
      match v
      case PyArray(data, shape, dtype) =>
        Some(JObj(map["type" := JStr("ndarray"), "value" := JStr(path(pos)),
                      "shape" := Ints(shape), "dtype" := JStr(dtype)]))
      case PyProxy(_, text) => Some(Typed("scalar", JStr(text)))
      case PyModule(text) => Some(Typed("scalar", JStr(text)))
      case PyCallable(text) => Some(Typed("scalar", JStr(text)))
      case _ => None
  }

  // _deser_array and the bridge_ref case of _deser.
  function WorkerRecords(lib: Lib, files: map<string, File>): Records {
    (f: map<string, Json>) =>
      if Field(f, "type") == JStr("bridge_ref") then
        var name := Get(f, "value", JStr(""));
        if name.JStr? && lib.resolves(name.s) then Some(PyProxy(name.s, "")) else None
      else
        var path, dtype := Get(f, "value", JStr("")), Get(f, "dtype", JStr("float64"));
        var shape := Get(f, "shape", JList([]));
        if !path.JStr? || path.s == "" || Readable(files, path.s).None? || !dtype.JStr? || Nats(shape).None? then None
        else FromBuffer(lib, Readable(files, path.s).value, Nats(shape).value, dtype.s)
  }

  // np.frombuffer(raw, dtype).reshape(shape)
  function FromBuffer(lib: Lib, raw: bytes, shape: seq<nat>, dtype: string): Option<PyVal> {
    match lib.itemSize(dtype)
    case Some(size) => if |raw| == R.Prod(shape) * size then Some(PyArray(raw, shape, dtype)) else None
    case None => None
  }
}
