/** Round trips of values: exactly which values the wire carries unchanged,
    nested inside others or at top level, in both directions. */
module Trips {
  import opened Wrappers
  import opened Wire
  import opened Values
  import N = Numbers

  // A value written by one side, carried by the host and read by the other
  // arrives, and as the value it was.
  ghost predicate Good(lib: Lib, leaves: Leaves, records: Records, pos: Pos, v: PyVal) {
    && Sends(leaves, pos, v)
    && Parses(Ser(leaves, pos, v))
    && Same(lib, records, Ser(leaves, pos, v), v)
  }

  ghost predicate Same(lib: Lib, records: Records, j: Json, v: PyVal) {
    var w := MapNum(Travelling(lib), j);
    Reads(records, w) && Norm(Deser(records, w)) == Norm(v)
  }

  // Numbers survive, and the values the sides treat differently satisfy `ok`.
  predicate Faithful(lib: Lib, ok: PyVal -> bool, v: PyVal) {
    match v
    case PyInt(i) => Survives(lib, i as real)
    case PyFloat(x) => Survives(lib, x)
    case PyNonFinite => false
    case PyKeyed(_) => false
    case PyList(items) => forall i | 0 <= i < |items| :: Faithful(lib, ok, items[i])
    case PyTuple(items) => forall i | 0 <= i < |items| :: Faithful(lib, ok, items[i])
    case PyDict(entries) => forall k <- entries :: Faithful(lib, ok, entries[k])
    case _ => IsLeaf(v) ==> ok(v)
  }

  ghost predicate LeavesAre(lib: Lib, leaves: Leaves, records: Records, ok: PyVal -> bool) {
    forall pos, v | IsLeaf(v) :: Good(lib, leaves, records, pos, v) <==> ok(v)
  }

  // The trip is exact: what arrives as the value it was is precisely what is
  // built from surviving numbers and fit leaves.
  lemma {:induction false} TripExact(lib: Lib, leaves: Leaves, records: Records, ok: PyVal -> bool, pos: Pos, v: PyVal)
    requires LeavesAre(lib, leaves, records, ok)
    ensures Good(lib, leaves, records, pos, v) <==> Faithful(lib, ok, v)
    decreases v
  {
    hide Good, Survives;
    match v
    case PyList(items) =>
      forall i | 0 <= i < |items|
        ensures Good(lib, leaves, records, pos + [Index(i)], items[i]) <==> Faithful(lib, ok, items[i])
      {
        TripExact(lib, leaves, records, ok, pos + [Index(i)], items[i]);
      }
      ListTrip(lib, leaves, records, pos, v, items);
    case PyTuple(items) =>
      forall i | 0 <= i < |items|
        ensures Good(lib, leaves, records, pos + [Index(i)], items[i]) <==> Faithful(lib, ok, items[i])
      {
        TripExact(lib, leaves, records, ok, pos + [Index(i)], items[i]);
      }
      ListTrip(lib, leaves, records, pos, v, items);
    case PyDict(entries) =>
      forall k | k in entries
        ensures Good(lib, leaves, records, pos + [Key(k)], entries[k]) <==> Faithful(lib, ok, entries[k])
      {
        TripExact(lib, leaves, records, ok, pos + [Key(k)], entries[k]);
      }
      DictTrip(lib, leaves, records, pos, v, entries);
    case PyKeyed(pairs) => KeyedTrip(lib, leaves, records, pos, v);
    case _ =>
      if !IsLeaf(v) {
        ScalarTrip(lib, leaves, records, pos, v);
      }
  }

  lemma LeafTrip(lib: Lib, leaves: Leaves, records: Records, pos: Pos, v: PyVal)
    requires IsLeaf(v)
    ensures Good(lib, leaves, records, pos, v) <==>
            && leaves(pos, v).Some?
            && Parses(leaves(pos, v).value)
            && Same(lib, records, leaves(pos, v).value, v)
  {
    hide Parses, Same;
  }

  lemma ScalarTrip(lib: Lib, leaves: Leaves, records: Records, pos: Pos, v: PyVal)
    requires !IsLeaf(v) && !v.PyList? && !v.PyTuple? && !v.PyDict? && !v.PyKeyed?
    ensures Good(lib, leaves, records, pos, v) <==>
            match v
            case PyInt(i) => Survives(lib, i as real)
            case PyFloat(x) => Survives(lib, x)
            case PyNonFinite => false
            case _ => true
  {
    var payload := ScalarPayload(leaves, pos, v);
    ScalarRead(lib, records, payload, v);
    TypedTravels(Travelling(lib), "scalar", payload);
    hide Same, Ser, Sends, Typed;
  }

  // What such a value is written as.
  lemma ScalarPayload(leaves: Leaves, pos: Pos, v: PyVal) returns (payload: Json)
    requires !IsLeaf(v) && !v.PyList? && !v.PyTuple? && !v.PyDict? && !v.PyKeyed?
    ensures Sends(leaves, pos, v) && Ser(leaves, pos, v) == Typed("scalar", payload)
    ensures match v
            case PyNone => payload == JNull
            case PyBool(b) => payload == JBool(b)
            case PyInt(i) => payload == JNum(i as real)
            case PyFloat(x) => payload == JNum(x)
            case PyNonFinite => payload == JNaN
            case PyStr(s) => payload == JStr(s)
            case PyOther(text) => payload == JStr(text)
            case _ => false
  {
    payload := Ser(leaves, pos, v).fields["value"];
  }

  lemma ScalarRead(lib: Lib, records: Records, payload: Json, v: PyVal)
    ensures Same(lib, records, Typed("scalar", payload), v) <==> Norm(Raw(MapNum(Travelling(lib), payload))) == Norm(v)
  {
    TypedTravels(Travelling(lib), "scalar", payload);
    ReadScalar(records, MapNum(Travelling(lib), payload));
    hide Reads, Deser, MapNum, Norm, Raw, Typed;
  }

  // Reading a tagged value.
  lemma ReadScalar(records: Records, value: Json)
    ensures Reads(records, Typed("scalar", value)) && Deser(records, Typed("scalar", value)) == Raw(value)
  {
    assert Field(Typed("scalar", value).fields, "type") == JStr("scalar");
  }

  lemma ReadList(records: Records, ws: seq<Json>)
    ensures Reads(records, Typed("list", JList(ws))) <==> forall i | 0 <= i < |ws| :: Reads(records, ws[i])
    ensures Reads(records, Typed("list", JList(ws))) ==>
              Deser(records, Typed("list", JList(ws))) ==
              PyList(seq(|ws|, i requires 0 <= i < |ws| => Deser(records, ws[i])))
  {
    assert Field(Typed("list", JList(ws)).fields, "type") == JStr("list");
  }

  lemma ReadDict(records: Records, ws: map<string, Json>)
    ensures Reads(records, Typed("dict", JObj(ws))) <==> forall k <- ws :: Reads(records, ws[k])
    ensures Reads(records, Typed("dict", JObj(ws))) ==>
              Deser(records, Typed("dict", JObj(ws))) == PyDict(map k | k in ws :: Deser(records, ws[k]))
  {
    assert Field(Typed("dict", JObj(ws)).fields, "type") == JStr("dict");
  }

  lemma TypedTravels(f: real -> real, kind: string, value: Json)
    ensures MapNum(f, Typed(kind, value)) == Typed(kind, MapNum(f, value))
    ensures Parses(Typed(kind, value)) <==> Parses(value)
  {
    var m := Typed(kind, value).fields;
    assert m["type"] == JStr(kind) && m["value"] == value && m.Keys == {"type", "value"};
    assert MapNum(f, JStr(kind)) == JStr(kind);
    assert MapNum(f, Typed(kind, value)).fields == Typed(kind, MapNum(f, value)).fields;
  }

  lemma ListTrip(lib: Lib, leaves: Leaves, records: Records, pos: Pos, v: PyVal, items: seq<PyVal>)
    requires v == PyList(items) || v == PyTuple(items)
    ensures Good(lib, leaves, records, pos, v) <==>
            forall i | 0 <= i < |items| :: Good(lib, leaves, records, pos + [Index(i)], items[i])
  {
    hide Same;
    if Sends(leaves, pos, v) {
      var js := seq(|items|, i requires 0 <= i < |items| => Ser(leaves, pos + [Index(i)], items[i]));
      assert Ser(leaves, pos, v) == Typed("list", JList(js));
      TypedTravels(Travelling(lib), "list", JList(js));
      ListRead(lib, records, js, v, items);
    }
  }

  lemma ListRead(lib: Lib, records: Records, js: seq<Json>, v: PyVal, items: seq<PyVal>)
    requires |js| == |items| && (v == PyList(items) || v == PyTuple(items))
    ensures Same(lib, records, Typed("list", JList(js)), v) <==>
            forall i | 0 <= i < |items| :: Same(lib, records, js[i], items[i])
  {
    TypedTravels(Travelling(lib), "list", JList(js));
    var ws := seq(|js|, i requires 0 <= i < |js| => MapNum(Travelling(lib), js[i]));
    assert MapNum(Travelling(lib), JList(js)) == JList(ws);
    ReadList(records, ws);
    hide Reads, Deser, MapNum, Norm, NormAll;
    if Reads(records, Typed("list", JList(ws))) {
      var got := seq(|ws|, i requires 0 <= i < |ws| => Deser(records, ws[i]));
      assert Deser(records, Typed("list", JList(ws))) == PyList(got);
      ListNorms(got, items, v);
      forall i | 0 <= i < |items| ensures Same(lib, records, js[i], items[i]) <==> Norm(got[i]) == Norm(items[i]) {
        assert ws[i] == MapNum(Travelling(lib), js[i]) && got[i] == Deser(records, ws[i]);
      }
    } else {
      var i :| 0 <= i < |ws| && !Reads(records, ws[i]);
      assert ws[i] == MapNum(Travelling(lib), js[i]);
      assert !Same(lib, records, js[i], items[i]);
    }
  }

  lemma ListNorms(got: seq<PyVal>, items: seq<PyVal>, v: PyVal)
    requires |got| == |items| && (v == PyList(items) || v == PyTuple(items))
    ensures Norm(PyList(got)) == Norm(v) <==> forall i | 0 <= i < |items| :: Norm(got[i]) == Norm(items[i])
  {
    assert Norm(v) == PyList(NormAll(items)) && Norm(PyList(got)) == PyList(NormAll(got));
    var a, b := NormAll(got), NormAll(items);
    assert forall i | 0 <= i < |items| :: a[i] == Norm(got[i]) && b[i] == Norm(items[i]);
    assert a == b <==> forall i | 0 <= i < |items| :: a[i] == b[i];
  }

  lemma DictTrip(lib: Lib, leaves: Leaves, records: Records, pos: Pos, v: PyVal, entries: map<string, PyVal>)
    requires v == PyDict(entries)
    ensures Good(lib, leaves, records, pos, v) <==>
            forall k <- entries :: Good(lib, leaves, records, pos + [Key(k)], entries[k])
  {
    hide Same;
    if Sends(leaves, pos, v) {
      var js := map k | k in entries :: Ser(leaves, pos + [Key(k)], entries[k]);
      assert Ser(leaves, pos, v) == Typed("dict", JObj(js));
      TypedTravels(Travelling(lib), "dict", JObj(js));
      DictRead(lib, records, js, entries);
    }
  }

  // Keys that are not text come back as text.
  lemma KeyedTrip(lib: Lib, leaves: Leaves, records: Records, pos: Pos, v: PyVal)
    requires v.PyKeyed?
    ensures !Good(lib, leaves, records, pos, v)
  {
    if Sends(leaves, pos, v) {
      var js := JObj(SerPairs(leaves, pos, v, |v.pairs|));
      TypedTravels(Travelling(lib), "dict", js);
      var ws := MapNum(Travelling(lib), js);
      ReadDict(records, ws.fields);
    }
  }

  lemma DictRead(lib: Lib, records: Records, js: map<string, Json>, entries: map<string, PyVal>)
    requires js.Keys == entries.Keys
    ensures Same(lib, records, Typed("dict", JObj(js)), PyDict(entries)) <==>
            forall k <- entries :: Same(lib, records, js[k], entries[k])
  {
    TypedTravels(Travelling(lib), "dict", JObj(js));
    var ws := map k | k in js :: MapNum(Travelling(lib), js[k]);
    assert MapNum(Travelling(lib), JObj(js)) == JObj(ws);
    DictRaw(records, ws, entries);
    hide Reads, Deser, MapNum, Norm, Typed;
    forall k | k in entries ensures Same(lib, records, js[k], entries[k]) <==>
                                    Reads(records, ws[k]) && Norm(Deser(records, ws[k])) == Norm(entries[k]) {
      assert ws[k] == MapNum(Travelling(lib), js[k]);
    }
  }

  lemma DictRaw(records: Records, ws: map<string, Json>, entries: map<string, PyVal>)
    requires ws.Keys == entries.Keys
    ensures var w := Typed("dict", JObj(ws));
            Reads(records, w) && Norm(Deser(records, w)) == Norm(PyDict(entries)) <==>
            forall k <- entries :: Reads(records, ws[k]) && Norm(Deser(records, ws[k])) == Norm(entries[k])
  {
    ReadDict(records, ws);
    hide Reads, Deser, Norm, Typed;
    if Reads(records, Typed("dict", JObj(ws))) {
      var got := map k | k in ws :: Deser(records, ws[k]);
      assert Deser(records, Typed("dict", JObj(ws))) == PyDict(got);
      DictNorms(got, entries);
      assert forall k <- entries :: got[k] == Deser(records, ws[k]);
    } else {
      var k :| k in ws && !Reads(records, ws[k]);
      assert k in entries;
    }
  }

  lemma DictNorms(got: map<string, PyVal>, entries: map<string, PyVal>)
    requires got.Keys == entries.Keys
    ensures Norm(PyDict(got)) == Norm(PyDict(entries)) <==> forall k <- entries :: Norm(got[k]) == Norm(entries[k])
  {
    var a, b := Norm(PyDict(got)).entries, Norm(PyDict(entries)).entries;
    assert a == b <==> forall k <- entries :: a[k] == b[k];
  }

  // ---------------------------------------------------------------- what is read is normal

  lemma {:induction false} RawNormal(j: Json)
    ensures Norm(Raw(j)) == Raw(j)
  {
    match j
    case JList(items) =>
      forall i | 0 <= i < |items| ensures Norm(Raw(items[i])) == Raw(items[i]) { RawNormal(items[i]); }
      assert NormAll(Raw(j).items) == Raw(j).items;
    case JObj(fields) =>
      forall k | k in fields ensures Norm(Raw(fields[k])) == Raw(fields[k]) { RawNormal(fields[k]); }
      assert Norm(Raw(j)).entries == Raw(j).entries;
    case _ =>
  }

  // json.dumps of plain data, and that Raw reads it back.
  function Dumps(v: PyVal): Json {
    match v
    case PyBool(b) => JBool(b)
    case PyFloat(x) => JNum(x)
    case PyNonFinite => JNaN
    case PyStr(s) => JStr(s)
    case PyList(items) => JList(seq(|items|, i requires 0 <= i < |items| => Dumps(items[i])))
    case PyDict(entries) => JObj(map k | k in entries :: Dumps(entries[k]))
    case _ => JNull
  }

  predicate PlainData(v: PyVal) {
    match v
    case PyList(items) => forall i | 0 <= i < |items| :: PlainData(items[i])
    case PyDict(entries) => forall k <- entries :: PlainData(entries[k])
    case _ => v.PyNone? || v.PyBool? || v.PyFloat? || v.PyNonFinite? || v.PyStr?
  }

  lemma {:induction false} RawReadsBack(v: PyVal)
    requires PlainData(v)
    ensures Raw(Dumps(v)) == v
    decreases v
  {
    match v
    case PyList(items) =>
      forall i | 0 <= i < |items| ensures Raw(Dumps(items[i])) == items[i] { RawReadsBack(items[i]); }
      assert Raw(Dumps(v)).items == items;
    case PyDict(entries) =>
      forall k | k in entries ensures Raw(Dumps(entries[k])) == entries[k] { RawReadsBack(entries[k]); }
      assert Raw(Dumps(v)).entries == entries;
    case _ =>
  }

  ghost predicate NormalRecords(records: Records) {
    forall f | records(f).Some? :: Norm(records(f).value) == records(f).value
  }

  // Every value a side reads is its own normal form: that one arrives as the value
  // it was says exactly which one is read.
  lemma {:induction false} ReadNormal(records: Records, j: Json)
    requires NormalRecords(records) && Reads(records, j)
    ensures Norm(Deser(records, j)) == Deser(records, j)
    decreases j
  {
    if j.JObj? {
      var f := j.fields;
      var t := Field(f, "type");
      if t == JStr("list") {
        if "value" in f && f["value"].JList? {
          var items := f["value"].items;
          forall i | 0 <= i < |items| ensures Norm(Deser(records, items[i])) == Deser(records, items[i]) {
            ReadNormal(records, items[i]);
          }
          assert NormAll(Deser(records, j).items) == Deser(records, j).items;
        }
      } else if t == JStr("dict") {
        if "value" in f {
          var o := f["value"].fields;
          forall k | k in o ensures Norm(Deser(records, o[k])) == Deser(records, o[k]) {
            ReadNormal(records, o[k]);
          }
          assert Norm(Deser(records, j)).entries == Deser(records, j).entries;
        }
      } else {
        RawNormal(Field(f, "value"));
      }
    }
  }

  // ---------------------------------------------------------------- what cannot be written

  predicate HasBadKey(v: PyVal) {
    v.PyKeyed? && exists i | 0 <= i < |v.pairs| :: v.pairs[i].0.BadKey?
  }

  // A value, or one inside it at any depth, is of this kind.
  ghost predicate Somewhere(kind: PyVal -> bool, v: PyVal) {
    || kind(v)
    || match v
       case PyList(items) => exists i | 0 <= i < |items| :: Somewhere(kind, items[i])
       case PyTuple(items) => exists i | 0 <= i < |items| :: Somewhere(kind, items[i])
       case PyDict(entries) => exists k | k in entries :: Somewhere(kind, entries[k])
       case PyKeyed(pairs) => exists i | 0 <= i < |pairs| :: Somewhere(kind, pairs[i].1)
       case _ => false
  }

  ghost predicate Refuses(leaves: Leaves, kind: PyVal -> bool) {
    && (forall pos, v | IsLeaf(v) :: leaves(pos, v).None? <==> kind(v))
    && (forall v | !IsLeaf(v) :: kind(v) <==> HasBadKey(v))
  }

  // Writing raises exactly when such a value is somewhere inside.
  lemma {:induction false} SendsUnless(leaves: Leaves, kind: PyVal -> bool, pos: Pos, v: PyVal)
    requires Refuses(leaves, kind)
    ensures Sends(leaves, pos, v) <==> !Somewhere(kind, v)
    decreases v
  {
    match v
    case PyList(items) =>
      forall i | 0 <= i < |items| ensures Sends(leaves, pos + [Index(i)], items[i]) <==> !Somewhere(kind, items[i]) {
        SendsUnless(leaves, kind, pos + [Index(i)], items[i]);
      }
    case PyTuple(items) =>
      forall i | 0 <= i < |items| ensures Sends(leaves, pos + [Index(i)], items[i]) <==> !Somewhere(kind, items[i]) {
        SendsUnless(leaves, kind, pos + [Index(i)], items[i]);
      }
    case PyDict(entries) =>
      forall k | k in entries ensures Sends(leaves, pos + [Key(k)], entries[k]) <==> !Somewhere(kind, entries[k]) {
        SendsUnless(leaves, kind, pos + [Key(k)], entries[k]);
      }
    case PyKeyed(pairs) =>
      forall i | 0 <= i < |pairs|
        ensures Sends(leaves, pos + [Index(i)], pairs[i].1) <==> !Somewhere(kind, pairs[i].1)
      {
        SendsUnless(leaves, kind, pos + [Index(i)], pairs[i].1);
      }
    case _ =>
  }

  // ---------------------------------------------------------------- which numbers

  // Integral values within 2^53 and all other finite floats survive.
  predicate PromisedNumber(x: real) {
    if Integral(x) then N.Abs(x.Floor) <= N.EXACT else -(N.Pow2(1024) as real) < x < N.Pow2(1024) as real
  }

  lemma PromisedSurvives(lib: Lib, x: real)
    requires lib.Sound() && PromisedNumber(x)
    ensures Survives(lib, x)
  {
    hide N.Pow2, N.RoundNat;
    if Integral(x) {
      N.SmallSurvives(lib.digits, x.Floor);
      Pow2Large();
    }
  }

  // Exactly which integers survive, x being the double nearest to i: those below
  // half a step from 2^1024 that are the shortest decimal of x or, where decimals
  // get an exponent, x itself.
  lemma IntegerSurvives(lib: Lib, i: int, x: int)
    requires lib.Sound() && N.Nearest(i, x)
    ensures Survives(lib, i as real) <==>
            && N.Abs(i) < N.Pow2(1024) - N.Pow2(970)
            && if N.Abs(x) < N.E21 then N.IsShortest(x, i) else N.IsDouble(i)
  {
    hide N.RoundInt, N.Pow2, N.Nearest, N.IsShortest, N.IsDouble, Parses;
    N.RoundsToNearest(i);
    N.OneNearest(i, x, N.RoundInt(i));
    IntegerTaken(i);
    N.LargeSurvives(lib.digits, i);
    TravelIsThrough(lib, i);
  }

  lemma TravelIsThrough(lib: Lib, i: int)
    ensures Travel(lib, i as real) == N.Through(lib.digits, i) as real
  {
    hide N.RoundInt;
    assert (i as real).Floor == i;
    assert (N.RoundInt(i) as real).Floor == N.RoundInt(i);
  }

  // Not all: the integer 2^53 + 1 is rounded, and the double 2^60 comes back as
  // another integer, the shortest one that reads as it.
  lemma SomeNumbersLost(lib: Lib)
    requires lib.Sound()
    ensures !Survives(lib, (N.EXACT + 1) as real) && !Survives(lib, 0x1000_0000_0000_0000 as real)
  {
    hide N.RoundNat;
    N.Lost(lib.digits);
    N.RoundsToSmall(N.EXACT + 1);
    var a, b := (N.EXACT + 1) as real, 0x1000_0000_0000_0000 as real;
    assert a.Floor == N.EXACT + 1 && b.Floor == 0x1000_0000_0000_0000;
    assert N.RoundInt(N.EXACT + 1) == N.EXACT;
  }

  // None, bools, text, such numbers, and lists, tuples and string-keyed dicts of
  // them: what the wire is meant to carry, in either direction.
  predicate Promised(v: PyVal) {
    match v
    case PyNone => true
    case PyBool(_) => true
    case PyStr(_) => true
    case PyInt(i) => PromisedNumber(i as real)
    case PyFloat(x) => PromisedNumber(x)
    case PyList(items) => forall i | 0 <= i < |items| :: Promised(items[i])
    case PyTuple(items) => forall i | 0 <= i < |items| :: Promised(items[i])
    case PyDict(entries) => forall k <- entries :: Promised(entries[k])
    case _ => false
  }

  lemma {:induction false} PromisedArrives(lib: Lib, ok: PyVal -> bool, v: PyVal)
    requires lib.Sound() && Promised(v)
    ensures Faithful(lib, ok, v)
    decreases v
  {
    match v
    case PyInt(i) => PromisedSurvives(lib, i as real);
    case PyFloat(x) => PromisedSurvives(lib, x);
    case PyList(items) =>
      forall i | 0 <= i < |items| ensures Faithful(lib, ok, items[i]) { PromisedArrives(lib, ok, items[i]); }
    case PyTuple(items) =>
      forall i | 0 <= i < |items| ensures Faithful(lib, ok, items[i]) { PromisedArrives(lib, ok, items[i]); }
    case PyDict(entries) =>
      forall k | k in entries ensures Faithful(lib, ok, entries[k]) { PromisedArrives(lib, ok, entries[k]); }
    case _ =>
  }
}
