/** The files a result's arrays are in: those the worker writes, and those its
    reply names. */
module ResultFiles {
  import opened Wire
  import opened Values
  import opened Trips
  import opened TopLevel

  // Where the arrays of a value sit.
  function Spots(pos: Pos, v: PyVal): set<Pos>
    decreases v
  {
    match v
    case PyArray(_, _, _) => {pos}
    case PyList(items) => set i, p | 0 <= i < |items| && p in Spots(pos + [Index(i)], items[i]) :: p
    case PyTuple(items) => set i, p | 0 <= i < |items| && p in Spots(pos + [Index(i)], items[i]) :: p
    case PyKeyed(pairs) => set i, p | 0 <= i < |pairs| && p in Spots(pos + [Index(i)], pairs[i].1) :: p
    case PyDict(entries) => set k, p | k in entries && p in Spots(pos + [Key(k)], entries[k]) :: p
    case _ => {}
  }

  function Paths(path: Pos -> string, spots: set<Pos>): set<string> {
    set p | p in spots :: path(p)
  }

  // Serialising writes each of the value's arrays to a file of its own.
  function ArrayFiles(path: Pos -> string, v: PyVal): set<string> {
    Paths(path, Spots([], v))
  }

  // The files a JSON text names: the value of every ndarray record in it.
  function FilesNamed(j: Json): set<string> {
    match j
    case JObj(f) =>
      if "type" !in f || "value" !in f then {}
      else if f["type"] == JStr("ndarray") then NamedBy(f["value"])
      else if f["type"] == JStr("list") && f["value"].JList? then
        var items := f["value"].items;
        set i, p | 0 <= i < |items| && p in FilesNamed(items[i]) :: p
      else if f["type"] == JStr("dict") && f["value"].JObj? then
        var fields := f["value"].fields;
        set k, p | k in fields && p in FilesNamed(fields[k]) :: p
      else {}
    case _ => {}
  }

  function NamedBy(value: Json): set<string> { if value.JStr? then {value.s} else {} }

  // ---------------------------------------------------------------- what a reply names

  lemma NamedInList(js: seq<Json>, p: string)
    ensures p in FilesNamed(Typed("list", JList(js))) <==> exists i :: 0 <= i < |js| && p in FilesNamed(js[i])
  {
    var f := Typed("list", JList(js)).fields;
    assert f["type"] == JStr("list") && f["value"] == JList(js);
  }

  lemma NamedInDict(js: map<string, Json>, p: string)
    ensures p in FilesNamed(Typed("dict", JObj(js))) <==> exists k :: k in js && p in FilesNamed(js[k])
  {
    var f := Typed("dict", JObj(js)).fields;
    assert f["type"] == JStr("dict") && f["value"] == JObj(js);
  }

  lemma NamedInLeaf(path: Pos -> string, pos: Pos, v: PyVal)
    requires Sends(WorkerLeaves(path), pos, v)
    requires !v.PyList? && !v.PyTuple? && !v.PyDict? && !v.PyKeyed?
    ensures FilesNamed(Ser(WorkerLeaves(path), pos, v)) == if v.PyArray? then {path(pos)} else {}
  {
    match v
    case PyArray(_, shape, dtype) => NamedInRecord(path(pos), Ints(shape), dtype);
    case PyProxy(_, text) => NoneInScalar(JStr(text));
    case PyModule(text) => NoneInScalar(JStr(text));
    case PyCallable(text) => NoneInScalar(JStr(text));
    case _ =>
      var payload := ScalarPayload(WorkerLeaves(path), pos, v);
      NoneInScalar(payload);
  }

  lemma NamedInRecord(path: string, shape: Json, dtype: string)
    ensures FilesNamed(PathRecord(path, shape, dtype)) == {path}
  {
    var f := PathRecord(path, shape, dtype).fields;
    assert f["type"] == JStr("ndarray") && f["value"] == JStr(path);
  }

  lemma NoneInScalar(value: Json)
    ensures FilesNamed(Typed("scalar", value)) == {}
  {
    assert Typed("scalar", value).fields["type"] == JStr("scalar");
  }

  // Its value in place of a dict whose keys are not all text: the list of the
  // values, so that none of them is lost to another with the same key text.
  function Listed(v: PyVal): PyVal {
    match v
    case PyList(items) => PyList(seq(|items|, i requires 0 <= i < |items| => Listed(items[i])))
    case PyTuple(items) => PyTuple(seq(|items|, i requires 0 <= i < |items| => Listed(items[i])))
    case PyDict(entries) => PyDict(map k | k in entries :: Listed(entries[k]))
    case PyKeyed(pairs) => PyList(seq(|pairs|, i requires 0 <= i < |pairs| => Listed(pairs[i].1)))
    case _ => v
  }

  predicate Unkeyed(v: PyVal) {
    match v
    case PyList(items) => forall i | 0 <= i < |items| :: Unkeyed(items[i])
    case PyTuple(items) => forall i | 0 <= i < |items| :: Unkeyed(items[i])
    case PyDict(entries) => forall k <- entries :: Unkeyed(entries[k])
    case PyKeyed(_) => false
    case _ => true
  }

  lemma {:induction false} UnkeyedListed(v: PyVal)
    requires Unkeyed(v)
    ensures Listed(v) == v
  {
    match v
    case PyList(items) =>
      forall i | 0 <= i < |items| ensures Listed(items[i]) == items[i] { UnkeyedListed(items[i]); }
      assert Listed(v).items == items;
    case PyTuple(items) =>
      forall i | 0 <= i < |items| ensures Listed(items[i]) == items[i] { UnkeyedListed(items[i]); }
      assert Listed(v).items == items;
    case PyDict(entries) =>
      forall k | k in entries ensures Listed(entries[k]) == entries[k] { UnkeyedListed(entries[k]); }
      assert Listed(v).entries == entries;
    case _ =>
  }

  // The files written are those the text names, no value being lost.
  lemma {:induction false} WrittenAreNamed(path: Pos -> string, pos: Pos, v: PyVal)
    ensures Sends(WorkerLeaves(path), pos, Listed(v))
    ensures FilesNamed(Ser(WorkerLeaves(path), pos, Listed(v))) == Paths(path, Spots(pos, v))
    decreases v
  {
    var leaves := WorkerLeaves(path);
    if v.PyList? || v.PyTuple? || v.PyKeyed? {
      var items := Members(v);
      forall i | 0 <= i < |items|
        ensures Sends(leaves, pos + [Index(i)], Listed(items[i]))
        ensures FilesNamed(Ser(leaves, pos + [Index(i)], Listed(items[i]))) ==
                Paths(path, Spots(pos + [Index(i)], items[i]))
      {
        WrittenAreNamed(path, pos + [Index(i)], items[i]);
      }
      ListedMembers(pos, v);
      ListWritten(path, pos, items, Spots(pos, v), Listed(v));
    } else if v.PyDict? {
      var entries := v.entries;
      forall k | k in entries
        ensures Sends(leaves, pos + [Key(k)], Listed(entries[k]))
        ensures FilesNamed(Ser(leaves, pos + [Key(k)], Listed(entries[k]))) ==
                Paths(path, Spots(pos + [Key(k)], entries[k]))
      {
        WrittenAreNamed(path, pos + [Key(k)], entries[k]);
      }
      DictWritten(path, pos, entries, Spots(pos, v), Listed(v));
    } else {
      NamedInLeaf(path, pos, v);
    }
    hide Ser, Sends, FilesNamed, Paths;
  }

  // The values in a list, a tuple or a dict with other keys, in order.
  function Members(v: PyVal): (items: seq<PyVal>)
    requires v.PyList? || v.PyTuple? || v.PyKeyed?
    ensures forall i | 0 <= i < |items| :: items[i] < v
  {
    if v.PyKeyed? then seq(|v.pairs|, i requires 0 <= i < |v.pairs| => v.pairs[i].1)
    else if v.PyList? then v.items
    else v.items
  }

  lemma ListedMembers(pos: Pos, v: PyVal)
    requires v.PyList? || v.PyTuple? || v.PyKeyed?
    ensures var w, items := Listed(v), Members(v);
            && (w.PyList? || w.PyTuple?) && |w.items| == |items|
            && (forall i | 0 <= i < |items| :: w.items[i] == Listed(items[i]))
            && forall p ::
                 p in Spots(pos, v) <==> exists i :: 0 <= i < |items| && p in Spots(pos + [Index(i)], items[i])
  {
  }

  lemma ListWritten(path: Pos -> string, pos: Pos, items: seq<PyVal>, spots: set<Pos>, w: PyVal)
    requires forall i | 0 <= i < |items| ::
               && Sends(WorkerLeaves(path), pos + [Index(i)], Listed(items[i]))
               && FilesNamed(Ser(WorkerLeaves(path), pos + [Index(i)], Listed(items[i]))) ==
                  Paths(path, Spots(pos + [Index(i)], items[i]))
    requires forall p :: p in spots <==> exists i :: 0 <= i < |items| && p in Spots(pos + [Index(i)], items[i])
    requires (w.PyList? || w.PyTuple?) && |w.items| == |items|
    requires forall i | 0 <= i < |items| :: w.items[i] == Listed(items[i])
    ensures Sends(WorkerLeaves(path), pos, w) && FilesNamed(Ser(WorkerLeaves(path), pos, w)) == Paths(path, spots)
  {
    var leaves := WorkerLeaves(path);
    assert Sends(leaves, pos, w);
    var js := seq(|items|, i requires 0 <= i < |items| => Ser(leaves, pos + [Index(i)], w.items[i]));
    assert Ser(leaves, pos, w) == Typed("list", JList(js));
    hide Ser, Sends, Spots, FilesNamed, Listed, Typed;
    forall q ensures q in FilesNamed(Typed("list", JList(js))) <==> q in Paths(path, spots) {
      NamedInList(js, q);
      if i :| 0 <= i < |js| && q in FilesNamed(js[i]) {
        var p :| p in Spots(pos + [Index(i)], items[i]) && q == path(p);
        assert p in spots;
      }
      if q in Paths(path, spots) {
        var p :| p in spots && q == path(p);
        var i :| 0 <= i < |items| && p in Spots(pos + [Index(i)], items[i]);
        assert q in FilesNamed(js[i]);
      }
    }
  }

  lemma DictWritten(path: Pos -> string, pos: Pos, entries: map<string, PyVal>, spots: set<Pos>, w: PyVal)
    requires forall k | k in entries ::
               && Sends(WorkerLeaves(path), pos + [Key(k)], Listed(entries[k]))
               && FilesNamed(Ser(WorkerLeaves(path), pos + [Key(k)], Listed(entries[k]))) ==
                  Paths(path, Spots(pos + [Key(k)], entries[k]))
    requires forall p :: p in spots <==> exists k :: k in entries && p in Spots(pos + [Key(k)], entries[k])
    requires w.PyDict? && w.entries.Keys == entries.Keys && forall k <- entries :: w.entries[k] == Listed(entries[k])
    ensures Sends(WorkerLeaves(path), pos, w) && FilesNamed(Ser(WorkerLeaves(path), pos, w)) == Paths(path, spots)
  {
    hide Ser, Sends, Spots, FilesNamed, Listed, Typed, Paths;
    var leaves := WorkerLeaves(path);
    DictSends(leaves, pos, w);
    var js := DictSer(leaves, pos, w);
    FieldsUnion(path, pos, js, entries, spots);
  }

  lemma DictSends(leaves: Leaves, pos: Pos, w: PyVal)
    requires w.PyDict? && forall k <- w.entries :: Sends(leaves, pos + [Key(k)], w.entries[k])
    ensures Sends(leaves, pos, w)
  {
  }

  lemma FieldsUnion(path: Pos -> string, pos: Pos, js: map<string, Json>, entries: map<string, PyVal>, spots: set<Pos>)
    requires js.Keys == entries.Keys
    requires forall k <- entries :: FilesNamed(js[k]) == Paths(path, Spots(pos + [Key(k)], entries[k]))
    requires forall p :: p in spots <==> exists k :: k in entries && p in Spots(pos + [Key(k)], entries[k])
    ensures FilesNamed(Typed("dict", JObj(js))) == Paths(path, spots)
  {
    hide Spots, FilesNamed, Typed, Paths;
    forall q ensures q in FilesNamed(Typed("dict", JObj(js))) <==> q in Paths(path, spots) {
      FieldUnion(path, pos, js, entries, spots, q);
    }
  }

  lemma FieldUnion(path: Pos -> string, pos: Pos, js: map<string, Json>, entries: map<string, PyVal>,
                   spots: set<Pos>, q: string)
    requires js.Keys == entries.Keys
    requires forall k <- entries :: FilesNamed(js[k]) == Paths(path, Spots(pos + [Key(k)], entries[k]))
    requires forall p :: p in spots <==> exists k :: k in entries && p in Spots(pos + [Key(k)], entries[k])
    ensures q in FilesNamed(Typed("dict", JObj(js))) <==> q in Paths(path, spots)
  {
    hide Spots, FilesNamed, Typed;
    NamedInDict(js, q);
    if k :| k in js && q in FilesNamed(js[k]) {
      var p :| p in Spots(pos + [Key(k)], entries[k]) && q == path(p);
      assert p in spots;
    }
    if q in Paths(path, spots) {
      var p :| p in spots && q == path(p);
      var k :| k in entries && p in Spots(pos + [Key(k)], entries[k]);
      assert q in FilesNamed(js[k]);
    }
  }

  lemma DictSer(leaves: Leaves, pos: Pos, w: PyVal) returns (js: map<string, Json>)
    requires w.PyDict? && Sends(leaves, pos, w)
    ensures js.Keys == w.entries.Keys && forall k <- js :: js[k] == Ser(leaves, pos + [Key(k)], w.entries[k])
    ensures Ser(leaves, pos, w) == Typed("dict", JObj(js))
  {
    js := Ser(leaves, pos, w).fields["value"].fields;
  }

  // ---------------------------------------------------------------- dicts with other keys

  // No later pair has the same key text.
  predicate LastOf(pairs: seq<(DictKey, PyVal)>, n: nat, i: nat)
    requires n <= |pairs| && forall j | 0 <= j < |pairs| :: !pairs[j].0.BadKey?
  {
    i < n && forall j | i < j < n :: pairs[j].0.s != pairs[i].0.s
  }

  lemma {:induction false} LastKept(leaves: Leaves, pos: Pos, v: PyVal, n: nat, i: nat)
    requires v.PyKeyed? && n <= |v.pairs| && Sends(leaves, pos, v) && LastOf(v.pairs, n, i)
    ensures v.pairs[i].0.s in SerPairs(leaves, pos, v, n)
    ensures SerPairs(leaves, pos, v, n)[v.pairs[i].0.s] == Ser(leaves, pos + [Index(i)], v.pairs[i].1)
    decreases n
  {
    if i < n - 1 {
      LastKept(leaves, pos, v, n - 1, i);
    }
    hide Ser;
  }

  lemma {:induction false} KeptFrom(leaves: Leaves, pos: Pos, v: PyVal, n: nat, s: string) returns (i: nat)
    requires v.PyKeyed? && n <= |v.pairs| && Sends(leaves, pos, v) && s in SerPairs(leaves, pos, v, n)
    ensures LastOf(v.pairs, n, i) && v.pairs[i].0.s == s
    decreases n
  {
    if s == v.pairs[n - 1].0.s {
      i := n - 1;
    } else {
      i := KeptFrom(leaves, pos, v, n - 1, s);
    }
    hide Ser;
  }

  // The text of such a dict names the files of the last pair of each key text.
  lemma KeyedNames(leaves: Leaves, pos: Pos, v: PyVal, p: string)
    requires v.PyKeyed? && Sends(leaves, pos, v)
    ensures p in FilesNamed(Ser(leaves, pos, v)) <==>
            exists i: nat :: LastOf(v.pairs, |v.pairs|, i)
                             && p in FilesNamed(Ser(leaves, pos + [Index(i)], v.pairs[i].1))
  {
    var n := |v.pairs|;
    var js := SerPairs(leaves, pos, v, n);
    assert Ser(leaves, pos, v) == Typed("dict", JObj(js));
    NamedInDict(js, p);
    hide Ser, SerPairs, FilesNamed, LastOf, Typed, Sends;
    if s :| s in js && p in FilesNamed(js[s]) {
      var i := KeptFrom(leaves, pos, v, n, s);
      LastKept(leaves, pos, v, n, i);
    }
    if i: nat :| LastOf(v.pairs, n, i) && p in FilesNamed(Ser(leaves, pos + [Index(i)], v.pairs[i].1)) {
      LastKept(leaves, pos, v, n, i);
    }
  }

  // What such a text names, one of the members names.
  lemma NamedMember(leaves: Leaves, pos: Pos, v: PyVal, q: string) returns (i: nat)
    requires (v.PyList? || v.PyTuple? || v.PyKeyed?) && Sends(leaves, pos, v) && q in FilesNamed(Ser(leaves, pos, v))
    ensures i < |Members(v)| && Sends(leaves, pos + [Index(i)], Members(v)[i])
    ensures q in FilesNamed(Ser(leaves, pos + [Index(i)], Members(v)[i]))
  {
    if v.PyKeyed? {
      KeyedNames(leaves, pos, v, q);
      hide FilesNamed, Ser;
      i :| LastOf(v.pairs, |v.pairs|, i) && q in FilesNamed(Ser(leaves, pos + [Index(i)], v.pairs[i].1));
    } else {
      var items := v.items;
      var js := seq(|items|, i requires 0 <= i < |items| => Ser(leaves, pos + [Index(i)], items[i]));
      assert Ser(leaves, pos, v) == Typed("list", JList(js));
      NamedInList(js, q);
      hide FilesNamed, Ser;
      i :| 0 <= i < |js| && q in FilesNamed(js[i]);
    }
  }

  // A reply names no file the worker has not written.
  lemma {:induction false} NamedAreWritten(path: Pos -> string, pos: Pos, v: PyVal)
    requires Sends(WorkerLeaves(path), pos, v)
    ensures FilesNamed(Ser(WorkerLeaves(path), pos, v)) <= Paths(path, Spots(pos, v))
    decreases v
  {
    var leaves := WorkerLeaves(path);
    forall q | q in FilesNamed(Ser(leaves, pos, v)) ensures q in Paths(path, Spots(pos, v)) {
      if v.PyList? || v.PyTuple? || v.PyKeyed? {
        var i := NamedMember(leaves, pos, v, q);
        ListedMembers(pos, v);
        NamedAreWritten(path, pos + [Index(i)], Members(v)[i]);
        SpotAbove(path, pos + [Index(i)], Members(v)[i], pos, v, q);
      } else if v.PyDict? {
        var js := DictSer(leaves, pos, v);
        NamedInDict(js, q);
        var k :| k in js && q in FilesNamed(js[k]);
        NamedAreWritten(path, pos + [Key(k)], v.entries[k]);
        SpotAbove(path, pos + [Key(k)], v.entries[k], pos, v, q);
      } else {
        NamedInLeaf(path, pos, v);
        assert v.PyArray? ==> pos in Spots(pos, v);
      }
    }
    hide FilesNamed, Ser, Sends;
  }

  lemma SpotAbove(path: Pos -> string, below: Pos, w: PyVal, pos: Pos, v: PyVal, q: string)
    requires q in Paths(path, Spots(below, w)) && Spots(below, w) <= Spots(pos, v)
    ensures q in Paths(path, Spots(pos, v))
  {
  }

  // What the text would name if no pair of a dict replaced another.
  function NamedUnlost(path: Pos -> string, v: PyVal): set<string> {
    WrittenAreNamed(path, [], v);
    FilesNamed(ResultJson(path, Listed(v)))
  }

  lemma NamesOf(path: Pos -> string, v: PyVal)
    ensures NamedUnlost(path, v) == ArrayFiles(path, v)
    ensures Writable(path, v) ==> FilesNamed(ResultJson(path, v)) <= ArrayFiles(path, v)
    ensures Writable(path, v) && Unkeyed(v) ==> FilesNamed(ResultJson(path, v)) == ArrayFiles(path, v)
  {
    hide FilesNamed, Ser, Spots, Unkeyed, Listed, Sends;
    WrittenAreNamed(path, [], v);
    if Writable(path, v) {
      NamedAreWritten(path, [], v);
      if Unkeyed(v) {
        UnkeyedListed(v);
      }
    }
  }
}
