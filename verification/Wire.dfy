/** Values on the wire: JSON trees, and the host's typed argument records. */
module Wire {
  import opened Framing
  import opened Wrappers
  import opened Numbers
  import R = RowMajor

  // A parsed JSON text. JNaN stands for the literals NaN and Infinity, which
  // Python writes and the host's parser rejects.
  datatype Json =
    | JNull
    | JBool(b: bool)
    | JNum(x: real)
    | JNaN
    | JStr(s: string)
    | JList(items: seq<Json>)
    | JObj(fields: map<string, Json>)

  // The library functions the wire depends on.
  datatype Lib = Lib(
    encode64: bytes -> string,
    decode64: string -> Option<bytes>,
    digits: int -> int,                    // shortest digits of an integral double
    itemSize: string -> Option<nat>,       // array dtypes
    resolves: string -> bool               // dotted names the worker can resolve
  )
  {
    ghost predicate Sound() {
      && (forall b :: decode64(encode64(b)) == Some(b))
      && (forall b :: encode64(b) == "" <==> b == [])
      && Shortest(digits)
      && itemSize("") == None
    }
  }

  // ---------------------------------------------------------------- numbers

  predicate Integral(x: real) { x == x.Floor as real }

  function Round(x: real): real {
    if Integral(x) then RoundInt(x.Floor) as real else x
  }

  function Render(lib: Lib, x: real): real {
    if Integral(x) && Abs(x.Floor) < E21 then lib.digits(x.Floor) as real else x
  }

  // The host's parser takes the tree: no NaN, no number beyond float64.
  predicate Parses(j: Json) {
    match j
    case JNaN => false
    case JNum(x) => -(Pow2(1024) as real) < Round(x) < Pow2(1024) as real
    case JList(items) => forall i | 0 <= i < |items| :: Parses(items[i])
    case JObj(fields) => forall k <- fields :: Parses(fields[k])
    case _ => true
  }

  // No 64-bit integer is out of range.
  lemma InRange(n: nat)
    requires n < 0x8000_0000_0000_0000
    ensures Parses(JNum(n as real))
  {
    hide RoundNat, Pow2;
    RoundBound(n);
    Pow2Large();
    assert (n as real).Floor == n && Integral(n as real);
    assert Round(n as real) == RoundNat(n) as real;
  }

  lemma Pow2Large()
    ensures Pow2(1024) >= 0x1_0000_0000_0000_0000
  {
    assert Pow2(8) == 256;
    hide Pow2;
    Pow2Sum(8, 8);
    assert Pow2(16) == 256 * 256;
    Pow2Sum(16, 16);
    assert Pow2(32) == 65536 * 65536;
    Pow2Sum(32, 32);
    assert Pow2(64) == 0x1_0000_0000 * 0x1_0000_0000;
    Pow2Grows(64, 1024);
  }

  // The doubles below 2^1024 end half a step before it.
  lemma TopDouble(n: nat)
    requires IsDouble(n) && n < Pow2(1024)
    ensures n <= Pow2(1024) - Pow2(971)
  {
    var k: nat, e: nat :| k < EXACT && n == Scaled(k, e);
    TopStep();
    hide Pow2;
    NextTimes(EXACT - 1, Pow2(971));
    if e >= 971 {
      Pow2Sum(e - 971, 971);
      R.MulAssoc(k, Pow2(e - 971), Pow2(971));
      BelowMultiple(k * Pow2(e - 971), EXACT - 1, Pow2(971));
    } else {
      Pow2Grows(e, 971);
      R.MulMono(k, EXACT - 1, Pow2(e));
      R.MulMono(Pow2(e), Pow2(971), EXACT - 1);
    }
  }

  lemma BelowMultiple(a: nat, b: nat, p: nat)
    requires a * p < b * p + p
    ensures a * p <= b * p
  {
    if a > b {
      R.MulLess(b, a, p);
    } else {
      R.MulMono(a, b, p);
    }
  }

  lemma TopStep()
    ensures Pow2(1024) == EXACT * Pow2(971) && Pow2(971) == 2 * Pow2(970) && Pow2(970) >= 1
  {
    SmallPowers();
    hide Pow2;
    Pow2Sum(53, 971);
    Pow2Sum(1, 970);
    Pow2Grows(0, 970);
  }

  lemma SmallPowers()
    ensures Pow2(0) == 1 && Pow2(1) == 2 && Pow2(53) == EXACT
  {
    assert Pow2(5) == 32 && Pow2(8) == 256;
    assert Pow2(1) == 2 && Pow2(0) == 1;
    hide Pow2;
    Pow2Sum(8, 8);
    Pow2Sum(16, 16);
    Pow2Sum(32, 16);
    Pow2Sum(48, 5);
  }

  // An integer is in range exactly up to half a step below 2^1024; from there on it
  // rounds to 2^1024.
  lemma IntegerTaken(i: int)
    ensures Parses(JNum(i as real)) <==> Abs(i) < Pow2(1024) - Pow2(970)
  {
    InRangeNat(Abs(i));
    hide RoundNat, Pow2;
    assert (i as real).Floor == i && Integral(i as real);
  }

  lemma InRangeNat(n: nat)
    ensures RoundNat(n) < Pow2(1024) <==> n < Pow2(1024) - Pow2(970)
  {
    hide RoundNat, Pow2, IsDouble, Preferred;
    var x, t, h := RoundNat(n), Pow2(1024), Pow2(970);
    TopStep();
    RoundsToNearest(n);
    TopDoubles();
    if x < t {
      TopDouble(x);
      NotPastMiddle(n, x, t, h);
    } else if n < t - h {
      assert Preferred(n, x, t - 2 * h);
      TooFar(n, x, t, h);
    }
  }

  lemma TopDoubles()
    ensures IsDouble(Pow2(1024)) && IsDouble(Pow2(1024) - Pow2(971))
    ensures Pow2(971) >= 1 && (Pow2(1024) - Pow2(971)) % (2 * Pow2(971)) != 0
  {
    TopStep();
    hide Pow2;
    NextTimes(EXACT - 1, Pow2(971));
    assert Scaled(EXACT - 1, 971) == Pow2(1024) - Pow2(971);
    assert Scaled(1, 1024) == Pow2(1024);
    EvenMultiple(EXACT, Pow2(971));
    OddOneOut(Pow2(1024), Pow2(1024) - Pow2(971), Pow2(971));
  }

  // From half a step below t on, t is the nearest.
  lemma NotPastMiddle(n: nat, x: nat, t: nat, h: nat)
    requires h >= 1 && x <= t - 2 * h && IsDouble(t) && Nearest(n, x)
    requires t >= 2 * h && (t - 2 * h) % (2 * (2 * h)) != 0
    ensures n < t - h
  {
    assert Preferred(n, x, t);
    hide IsDouble, Nearest;
    if n >= t - h {
      assert false;
    }
  }

  lemma TooFar(n: nat, x: nat, t: nat, h: nat)
    requires h >= 1 && t >= 2 * h && x >= t && n < t - h
    ensures !Preferred(n, x, t - 2 * h)
  {
  }

  function MapNum(f: real -> real, j: Json): Json {
    match j
    case JNum(x) => JNum(f(x))
    case JList(items) => JList(seq(|items|, i requires 0 <= i < |items| => MapNum(f, items[i])))
    case JObj(fields) => JObj(map k | k in fields :: MapNum(f, fields[k]))
    case _ => j
  }

  // What the far side reads of a number sent through the host.
  function Travel(lib: Lib, x: real): real { Render(lib, Round(x)) }

  // These as functions of the number alone.
  function Rendering(lib: Lib): real -> real { x => Render(lib, x) }

  function Travelling(lib: Lib): real -> real { x => Travel(lib, x) }

  // The number gets through the host and comes out with the same value.
  predicate Survives(lib: Lib, x: real) { Parses(JNum(x)) && Travel(lib, x) == x }

  lemma {:induction false} MapNumTwice(f: real -> real, g: real -> real, h: real -> real, j: Json)
    requires forall x :: h(x) == g(f(x))
    ensures MapNum(g, MapNum(f, j)) == MapNum(h, j)
  {
    match j
    case JList(items) =>
      forall i | 0 <= i < |items| ensures MapNum(g, MapNum(f, items[i])) == MapNum(h, items[i]) {
        MapNumTwice(f, g, h, items[i]);
      }
      var t := MapNum(g, MapNum(f, j));
      assert |t.items| == |MapNum(h, j).items|;
    case JObj(fields) =>
      forall k | k in fields ensures MapNum(g, MapNum(f, fields[k])) == MapNum(h, fields[k]) {
        MapNumTwice(f, g, h, fields[k]);
      }
    case _ =>
  }

  // ---------------------------------------------------------------- worker.Arg

  datatype Arg = Arg(kind: string, value: Json, shmHandle: int, shape: seq<int>, dtype: string, b64: string)

  function Get(fields: map<string, Json>, name: string, default: Json): Json {
    if name in fields then fields[name] else default
  }

  // Where an absent field reads as null.
  function Field(fields: map<string, Json>, name: string): Json {
    Get(fields, name, JNull)
  }

  function AsString(j: Json): Option<string> {
    match j
    case JNull => Some("")
    case JStr(s) => Some(s)
    case _ => None
  }

  function AsInt(j: Json): Option<int> {
    match j
    case JNull => Some(0)
    case JNum(x) =>
      if Integral(x) && -0x8000_0000_0000_0000 <= x.Floor < 0x8000_0000_0000_0000 then Some(x.Floor) else None
    case _ => None
  }

  function AsInts(j: Json): Option<seq<int>> {
    match j
    case JNull => Some([])
    case JList(items) =>
      if forall i | 0 <= i < |items| :: AsInt(items[i]).Some?
      then Some(seq(|items|, i requires 0 <= i < |items| => AsInt(items[i]).value))
      else None
    case _ => None
  }

  // Unmarshalling into an Arg.
  function FromJson(j: Json): Option<Arg> {
    if j.JNull? then Some(Arg("", JNull, 0, [], "", ""))
    else if !j.JObj? || !Parses(j) then None
    else
      var f := j.fields;
      var kind, h, shape := AsString(Field(f, "type")), AsInt(Field(f, "shm_handle")), AsInts(Field(f, "shape"));
      var dtype, b64 := AsString(Field(f, "dtype")), AsString(Field(f, "b64"));
      if kind.Some? && h.Some? && shape.Some? && dtype.Some? && b64.Some?
      then Some(Arg(kind.value, MapNum(Round, Field(f, "value")), h.value, shape.value, dtype.value, b64.value))
      else None
  }

  // Marshalling an Arg: zero fields are left out.
  function ToJson(lib: Lib, a: Arg): Json {
    var f := map["type" := JStr(a.kind)];
    var f := Put(f, "value", a.value == JNull, MapNum(Rendering(lib), a.value));
    var f := Put(f, "shm_handle", a.shmHandle == 0, JNum(a.shmHandle as real));
    var f := Put(f, "shape", a.shape == [], Ints(a.shape));
    var f := Put(f, "dtype", a.dtype == "", JStr(a.dtype));
    var f := Put(f, "b64", a.b64 == "", JStr(a.b64));
    JObj(f)
  }

  function Put(fields: map<string, Json>, name: string, omit: bool, j: Json): map<string, Json> {
    if omit then fields else fields[name := j]
  }

  function Ints(ns: seq<int>): Json {
    JList(seq(|ns|, i requires 0 <= i < |ns| => JNum(ns[i] as real)))
  }

  // Reading a marshalled Arg field by field.
  lemma Marshalled(lib: Lib, a: Arg, default: Json)
    ensures ToJson(lib, a).JObj?
    ensures var f := ToJson(lib, a).fields;
            && Get(f, "type", default) == JStr(a.kind)
            && Get(f, "value", default) == (if a.value == JNull then default else MapNum(Rendering(lib), a.value))
            && Get(f, "shape", default) == (if a.shape == [] then default else Ints(a.shape))
            && Get(f, "dtype", default) == (if a.dtype == "" then default else JStr(a.dtype))
            && Get(f, "b64", default) == (if a.b64 == "" then default else JStr(a.b64))
  {
    MarshalledValue(lib, a, default);
    MarshalledArray(lib, a, default);
    hide Put, Get;
  }

  lemma MarshalledValue(lib: Lib, a: Arg, default: Json)
    ensures var f := ToJson(lib, a).fields;
            && Get(f, "type", default) == JStr(a.kind)
            && Get(f, "value", default) == (if a.value == JNull then default else MapNum(Rendering(lib), a.value))
  {
    hide MapNum, Ints;
  }

  lemma MarshalledArray(lib: Lib, a: Arg, default: Json)
    ensures var f := ToJson(lib, a).fields;
            && Get(f, "shape", default) == (if a.shape == [] then default else Ints(a.shape))
            && Get(f, "dtype", default) == (if a.dtype == "" then default else JStr(a.dtype))
            && Get(f, "b64", default) == (if a.b64 == "" then default else JStr(a.b64))
  {
    hide MapNum, Ints;
  }

  // ---------------------------------------------------------------- marshalling and back

  predicate Int64(i: int) { -0x8000_0000_0000_0000 <= i < 0x8000_0000_0000_0000 }

  lemma Int64Read(i: int)
    requires Int64(i)
    ensures Parses(JNum(i as real)) && AsInt(JNum(i as real)) == Some(i)
  {
    IntegerTaken(i);
    Pow2Large();
    TopStep();
    hide RoundInt, Pow2;
    assert (i as real).Floor == i;
  }

  lemma IntsReadBack(ns: seq<int>)
    requires forall i <- ns :: Int64(i)
    ensures Parses(Ints(ns)) && AsInts(Ints(ns)) == Some(ns)
  {
    var items := Ints(ns).items;
    forall k | 0 <= k < |ns| ensures Parses(items[k]) && AsInt(items[k]) == Some(ns[k]) {
      Int64Read(ns[k]);
    }
    hide AsInt;
    assert AsInts(Ints(ns)).value == ns;
  }

  // A record of integers in range comes back from its own text field by field, its
  // value with the numbers as the host writes and reads them.
  lemma RecordReturns(lib: Lib, a: Arg)
    requires Int64(a.shmHandle) && (forall i <- a.shape :: Int64(i)) && Parses(MapNum(Rendering(lib), a.value))
    ensures FromJson(ToJson(lib, a)) == Some(a.(value := MapNum(Round, MapNum(Rendering(lib), a.value))))
  {
    IntsReadBack(a.shape);
    Int64Read(a.shmHandle);
    hide MapNum, Ints, Parses, AsInt, AsInts, AsString, ToJson;
    RecordParses(lib, a);
    RecordFields(lib, a);
    HandleBack(a.shmHandle);
    ShapeBack(a.shape);
    TextBack(a.kind);
    TextBack(a.dtype);
    TextBack(a.b64);
    NullValue();
  }

  lemma HandleBack(h: int)
    requires AsInt(JNum(h as real)) == Some(h)
    ensures AsInt(if h == 0 then JNull else JNum(h as real)) == Some(h)
  {
  }

  lemma ShapeBack(ns: seq<int>)
    requires AsInts(Ints(ns)) == Some(ns)
    ensures AsInts(if ns == [] then JNull else Ints(ns)) == Some(ns)
  {
    hide Ints;
  }

  lemma TextBack(s: string)
    ensures AsString(if s == "" then JNull else JStr(s)) == Some(s) && AsString(JStr(s)) == Some(s)
  {
  }

  lemma NullValue()
    ensures forall f :: MapNum(f, JNull) == JNull
  {
  }

  lemma RecordParses(lib: Lib, a: Arg)
    requires Parses(Ints(a.shape)) && Parses(JNum(a.shmHandle as real)) && Parses(MapNum(Rendering(lib), a.value))
    ensures Parses(ToJson(lib, a))
  {
    hide MapNum, Ints, Round;
    var f := ToJson(lib, a).fields;
    forall k | k in f ensures Parses(f[k]) {
      hide Parses;
      assert f[k] in {JStr(a.kind), MapNum(Rendering(lib), a.value), JNum(a.shmHandle as real), Ints(a.shape),
                      JStr(a.dtype), JStr(a.b64)};
      TextParses(a.kind);
      TextParses(a.dtype);
      TextParses(a.b64);
    }
  }

  lemma TextParses(s: string)
    ensures Parses(JStr(s))
  {
  }

  lemma RecordFields(lib: Lib, a: Arg)
    ensures var f := ToJson(lib, a).fields;
            && Field(f, "type") == JStr(a.kind)
            && Field(f, "shm_handle") == (if a.shmHandle == 0 then JNull else JNum(a.shmHandle as real))
            && Field(f, "value") == (if a.value == JNull then JNull else MapNum(Rendering(lib), a.value))
            && Field(f, "shape") == (if a.shape == [] then JNull else Ints(a.shape))
            && Field(f, "dtype") == (if a.dtype == "" then JNull else JStr(a.dtype))
            && Field(f, "b64") == (if a.b64 == "" then JNull else JStr(a.b64))
  {
    Marshalled(lib, a, JNull);
    hide MapNum, Ints;
  }

  // null is read as a record without fields, that is, as the zero record, which in
  // turn is written with its type alone.
  lemma NullIsEmpty(lib: Lib)
    ensures FromJson(JNull) == FromJson(JObj(map[]))
    ensures FromJson(JNull).Some? && ToJson(lib, FromJson(JNull).value) == JObj(map["type" := JStr("")])
  {
  }
}
