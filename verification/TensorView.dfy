/** The shim's view over the raw bytes of an array: the four ways of indexing
    it, iteration and conversion to nested lists. */
module TensorView {
  import opened Framing
  import opened Wrappers
  import opened RowMajor

  datatype Error = IndexError | TypeError | NotImplemented | ValueError | StructError

  // Item size of the decodable dtypes.
  function ItemSize(dtype: string): Option<nat> {
    match dtype
    case "float64" => Some(8)
    case "float32" => Some(4)
    case "int64" => Some(8)
    case "int32" => Some(4)
    case "int16" => Some(2)
    case "int8" => Some(1)
    case "uint64" => Some(8)
    case "uint32" => Some(4)
    case "uint16" => Some(2)
    case "uint8" => Some(1)
    case "bool" => Some(1)
    case _ => None
  }

  // The number at the end of a name.
  function Bits(name: string): nat {
    if name == "" || !('0' <= name[|name| - 1] <= '9') then 0
    else 10 * Bits(name[..|name| - 1]) + (name[|name| - 1] - '0') as nat
  }

  // The sizes are those the names promise, in bits; a bool takes a byte.
  lemma SizeIsBits(dtype: string)
    requires ItemSize(dtype).Some?
    ensures 8 * ItemSize(dtype).value == if dtype == "bool" then 8 else Bits(dtype)
  {
  }

  // An element is identified with its bytes; decoding is a function of them.
  type Elem = bytes

  datatype View = View(data: bytes, shape: Shape, dtype: string) {
    predicate Decodable() { ItemSize(dtype).Some? }

    function IS(): nat
      requires Decodable()
    {
      ItemSize(dtype).value
    }

    // The bytes are those of Prod(shape) elements.
    predicate Valid() {
      Decodable() && |data| == Prod(shape) * IS()
    }
  }

  datatype Item = Element(elem: Elem) | Sub(view: View)

  // self.size: one factor per dimension, in order.
  method SizeOf(shape: Shape) returns (size: nat)
    ensures size == Prod(shape)
  {
    size := 1;
    ghost var done: Shape := [];
    for k := 0 to |shape|
      invariant done == shape[..k] && size == Prod(done)
    {
      ProdSplit(done, [shape[k]]);
      assert Prod([shape[k]]) == shape[k] * Prod([shape[k]][1..]) == shape[k];
      assert shape[..k + 1] == done + [shape[k]];
      done := done + [shape[k]];
      size := size * shape[k];
    }
    assert shape[..|shape|] == shape;
  }

  // struct.unpack_from at a flat index.
  function DecodeAt(v: View, flat: nat): Result<Elem, Error> {
    if !v.Decodable() then Err(TypeError)
    else if flat * v.IS() + v.IS() > |v.data| then Err(StructError)
    else Ok(v.data[flat * v.IS()..flat * v.IS() + v.IS()])
  }

  // data[lo:hi] for non-negative bounds.
  function Slice(data: bytes, lo: nat, hi: nat): bytes {
    if lo >= hi || lo >= |data| then [] else data[lo..if hi < |data| then hi else |data|]
  }

  lemma SliceInside(data: bytes, lo: nat, hi: nat)
    requires lo <= hi <= |data|
    ensures Slice(data, lo, hi) == data[lo..hi]
  {
  }

  // The i-th piece of s bytes.
  function ElemAt(data: bytes, s: nat, i: nat): bytes {
    MulMono(0, i, s);
    Slice(data, i * s, i * s + s)
  }

  // The element at a flat index.
  function ItemAt(v: View, flat: nat): (e: Elem)
    requires v.Valid() && flat < Prod(v.shape)
    ensures |e| == v.IS()
  {
    MulLess(flat, Prod(v.shape), v.IS());
    ElemAt(v.data, v.IS(), flat)
  }

  lemma DecodeInside(v: View, flat: nat)
    requires v.Valid() && flat < Prod(v.shape)
    ensures DecodeAt(v, flat) == Ok(ItemAt(v, flat))
  {
    MulLess(flat, Prod(v.shape), v.IS());
  }

  // A Python index into a dimension of n, negatives counted from the end.
  function Normal(i: int, n: nat): Option<nat> {
    var j := if i < 0 then i + n else i;
    if 0 <= j < n then Some(j) else None
  }

  // view[i], i an int.
  function GetFirst(v: View, i: int): Result<Item, Error> {
    if v.shape == [] then Err(IndexError)
    else
      var n := v.shape[0];
      match Normal(i, n)
      case None => Err(IndexError)
      case Some(j) =>
        if |v.shape| == 1 then
          (match DecodeAt(v, j)
           case Ok(e) => Ok(Element(e))
           case Err(x) => Err(x))
        else if !v.Decodable() then Err(TypeError)
        else Ok(Sub(PartView(v, j, Prod(v.shape) / n * v.IS())))
  }

  // The j-th part, of tailBytes bytes.
  function PartView(v: View, j: nat, tailBytes: nat): View
    requires |v.shape| >= 1
  {
    View(Slice(v.data, j * tailBytes, j * tailBytes + tailBytes), v.shape[1..], v.dtype)
  }

  // view[i0][i1]...: repeated selection along the first axis.
  function Select(v: View, idx: seq<int>): Result<Item, Error>
    decreases |idx|
  {
    if idx == [] then Ok(Sub(v))
    else match GetFirst(v, idx[0])
         case Err(x) => Err(x)
         case Ok(Sub(u)) => Select(u, idx[1..])
         case Ok(Element(e)) => if |idx| == 1 then Ok(Element(e)) else Err(TypeError)
  }

  // ---------------------------------------------------------------- sub-views

  lemma DivExact(n: nat, t: nat)
    requires n > 0
    ensures n * t / n == t
  {
    DivOfSum(t, n, 0);
  }

  // The bytes of the j-th of n parts of t elements of s bytes.
  lemma PartBounds(n: nat, t: nat, s: nat, j: nat)
    requires j < n
    ensures n * t / n * s == t * s
    ensures j * t + t <= n * t && (j * t + t) * s <= n * t * s
  {
    DivExact(n, t);
    MulLess(j, n, t);
    MulMono(j * t + t, n * t, s);
  }

  lemma PartStart(j: nat, t: nat, s: nat)
    ensures j * (t * s) == j * t * s
    ensures j * (t * s) + t * s == (j * t + t) * s
  {
    MulAssoc(j, t, s);
    AddTimes(j * t, t, s);
  }

  lemma AddTimes(a: nat, b: nat, s: nat)
    ensures (a + b) * s == a * s + b * s
  {
  }

  // Element k of a slice from element lo on is element lo + k of the whole.
  lemma ElemOfSlice(data: bytes, lo: nat, t: nat, s: nat, k: nat)
    requires k < t && (lo + t) * s <= |data|
    ensures ElemAt(Slice(data, lo * s, (lo + t) * s), s, k) == ElemAt(data, s, lo + k)
  {
    MulLess(k, t, s);
    AddTimes(lo, t, s);
    AddTimes(lo, k, s);
    SliceOfSlice(data, lo * s, (lo + t) * s, k * s, k * s + s);
  }

  lemma SliceOfSlice(data: bytes, lo: nat, hi: nat, a: nat, b: nat)
    requires lo <= hi <= |data| && a <= b <= hi - lo
    ensures Slice(Slice(data, lo, hi), a, b) == Slice(data, lo + a, lo + b)
  {
    if a < b {
      var x, y := data[lo..hi][a..b], data[lo + a..lo + b];
      assert |x| == |y| && forall k | 0 <= k < |x| :: x[k] == y[k];
      SliceInside(data, lo, hi);
      SliceInside(data[lo..hi], a, b);
      SliceInside(data, lo + a, lo + b);
    }
  }

  // The j-th part along the first axis, by element positions.
  function PartOf(v: View, j: nat): (u: View)
    requires v.Valid() && |v.shape| >= 1 && j < v.shape[0]
    ensures u.Valid() && u.shape == v.shape[1..] && u.dtype == v.dtype
    ensures j * Prod(u.shape) + Prod(u.shape) <= Prod(v.shape)
  {
    var t, s := Prod(v.shape[1..]), v.IS();
    PartBounds(v.shape[0], t, s, j);
    AddTimes(j * t, t, s);
    View(Slice(v.data, j * t * s, (j * t + t) * s), v.shape[1..], v.dtype)
  }

  // Selecting along the first axis gives that part.
  lemma FirstIsPart(v: View, i: int)
    requires v.Valid() && |v.shape| >= 2 && Normal(i, v.shape[0]).Some?
    ensures GetFirst(v, i) == Ok(Sub(PartOf(v, Normal(i, v.shape[0]).value)))
  {
    var j, t, s := Normal(i, v.shape[0]).value, Prod(v.shape[1..]), v.IS();
    assert Prod(v.shape) == v.shape[0] * t;
    PartBounds(v.shape[0], t, s, j);
    PartStart(j, t, s);
    hide Prod;
    assert PartView(v, j, t * s) == PartOf(v, j);
  }

  // Element k of the j-th part is element j * t + k of the whole.
  lemma PartItems(v: View, j: nat, k: nat)
    requires v.Valid() && |v.shape| >= 1 && j < v.shape[0] && k < Prod(v.shape[1..])
    ensures j * Prod(v.shape[1..]) + k < Prod(v.shape)
    ensures ItemAt(PartOf(v, j), k) == ItemAt(v, j * Prod(v.shape[1..]) + k)
  {
    var t, s := Prod(v.shape[1..]), v.IS();
    PartBounds(v.shape[0], t, s, j);
    assert Prod(v.shape) == v.shape[0] * t;
    hide Prod, ElemAt, Slice;
    ElemOfSlice(v.data, j * t, t, s, k);
  }

  // Selecting along the first axis gives a valid view of the j-th part.
  lemma SubView(v: View, i: int)
    requires v.Valid() && |v.shape| >= 2 && Normal(i, v.shape[0]).Some?
    ensures GetFirst(v, i).Ok? && GetFirst(v, i).value.Sub?
    ensures var u := GetFirst(v, i).value.view;
            var j := Normal(i, v.shape[0]).value;
            && u.Valid() && u.shape == v.shape[1..] && u.dtype == v.dtype
            && j * Prod(u.shape) + Prod(u.shape) <= Prod(v.shape)
            && (forall k | 0 <= k < Prod(u.shape) :: ItemAt(u, k) == ItemAt(v, j * Prod(u.shape) + k))
  {
    FirstIsPart(v, i);
    hide GetFirst, Prod, ItemAt, PartOf, Normal;
    var u := GetFirst(v, i).value.view;
    var j := Normal(i, v.shape[0]).value;
    forall k | 0 <= k < Prod(u.shape) ensures ItemAt(u, k) == ItemAt(v, j * Prod(u.shape) + k) {
      PartItems(v, j, k);
    }
  }

  lemma FirstElement(v: View, i: int)
    requires v.Valid() && |v.shape| == 1 && Normal(i, v.shape[0]).Some?
    ensures Prod(v.shape) == v.shape[0]
    ensures GetFirst(v, i) == Ok(Element(ItemAt(v, Normal(i, v.shape[0]).value)))
  {
    assert v.shape[1..] == [] && Prod(v.shape) == v.shape[0] * 1;
    DecodeInside(v, Normal(i, v.shape[0]).value);
  }

  // More indices than dimensions never select anything.
  lemma {:induction false} TooManyIndices(v: View, idx: seq<int>)
    requires v.Valid() && |idx| > |v.shape|
    ensures Select(v, idx).Err?
    decreases |idx|
  {
    if |v.shape| >= 2 && Normal(idx[0], v.shape[0]).Some? {
      SubView(v, idx[0]);
      TooManyIndices(GetFirst(v, idx[0]).value.view, idx[1..]);
    }
  }

  // ---------------------------------------------------------------- full tuples

  // The tuple with its negative indices resolved, if all are in range.
  function NormalAll(idx: seq<int>, shape: Shape): (r: Option<seq<nat>>)
    requires |idx| == |shape|
    ensures r.Some? ==> |r.value| == |shape|
  {
    if idx == [] then Some([])
    else
      var j, js := Normal(idx[0], shape[0]), NormalAll(idx[1..], shape[1..]);
      if j.Some? && js.Some? then Some([j.value] + js.value) else None
  }

  lemma {:induction false} NormalAllInBounds(idx: seq<int>, shape: Shape)
    requires |idx| == |shape| && NormalAll(idx, shape).Some?
    ensures InBounds(shape, NormalAll(idx, shape).value)
  {
    if idx != [] {
      NormalAllInBounds(idx[1..], shape[1..]);
    }
  }

  // Repeated first-axis selection reads the element at the row-major address,
  // and fails exactly when some index is out of range.
  lemma {:induction false} SelectIsOffset(v: View, idx: seq<int>)
    requires v.Valid() && |idx| == |v.shape| >= 1
    ensures match NormalAll(idx, v.shape)
            case None => Select(v, idx) == Err(IndexError)
            case Some(js) =>
              && Offset(v.shape, js) < Prod(v.shape)
              && Select(v, idx) == Ok(Element(ItemAt(v, Offset(v.shape, js))))
    decreases |idx|
  {
    match Normal(idx[0], v.shape[0])
    case None =>
    case Some(j) =>
      if |idx| == 1 {
        FirstElement(v, idx[0]);
        assert NormalAll(idx[1..], v.shape[1..]) == Some([]);
        assert Offset(v.shape, [j]) == j * Prod(v.shape[1..]) + Offset(v.shape[1..], [j][1..]);
      } else {
        SubView(v, idx[0]);
        var u := GetFirst(v, idx[0]).value.view;
        assert Select(v, idx) == Select(u, idx[1..]);
        SelectIsOffset(u, idx[1..]);
        if NormalAll(idx[1..], u.shape).Some? {
          SelectTail(v, idx, j);
          hide GetFirst, Select, ItemAt, Prod, Offset, NormalAll, Normal;
        }
      }
  }

  lemma SelectTail(v: View, idx: seq<int>, j: nat)
    requires v.Valid() && |idx| == |v.shape| >= 2 && Normal(idx[0], v.shape[0]) == Some(j)
    requires GetFirst(v, idx[0]).Ok? && GetFirst(v, idx[0]).value.Sub?
    requires NormalAll(idx[1..], v.shape[1..]).Some?
    ensures var js := NormalAll(idx[1..], v.shape[1..]).value;
            NormalAll(idx, v.shape) == Some([j] + js)
            && Offset(v.shape, [j] + js) == j * Prod(v.shape[1..]) + Offset(v.shape[1..], js)
  {
    var js := NormalAll(idx[1..], v.shape[1..]).value;
    NormalAllInBounds(idx[1..], v.shape[1..]);
    assert ([j] + js)[1..] == js;
  }

  // ---------------------------------------------------------------- view[tuple]

  // What indexing by an all-int tuple means, by first-axis selection alone.
  function TupleMeaning(v: View, idx: seq<int>): Result<Item, Error> {
    if |idx| > |v.shape| then Err(IndexError)
    else if v.shape == [] then
      (match DecodeAt(v, 0)
       case Ok(e) => Ok(Element(e))
       case Err(x) => Err(x))
    else Select(v, idx)
  }

  // view[tuple] as written: a partial tuple selects axis by axis, a full one
  // accumulates a flat offset from the last axis to the first.
  method GetTuple(v: View, idx: seq<int>) returns (r: Result<Item, Error>)
    requires v.Valid()
    ensures r == TupleMeaning(v, idx)
  {
    if |idx| > |v.shape| {
      return Err(IndexError);
    }
    if |idx| < |v.shape| {
      r := PartialTuple(v, idx);
      return;
    }
    r := FullTuple(v, idx);
    if v.shape != [] {
      SelectIsOffset(v, idx);
      if NormalAll(idx, v.shape).Some? {
        DecodeInside(v, Offset(v.shape, NormalAll(idx, v.shape).value));
      }
    }
  }

  method PartialTuple(v: View, idx: seq<int>) returns (r: Result<Item, Error>)
    requires v.Valid() && |idx| < |v.shape|
    ensures r == Select(v, idx)
  {
    var view := v;
    for k := 0 to |idx|
      invariant view.Valid() && |view.shape| == |v.shape| - k
      invariant Select(view, idx[k..]) == Select(v, idx)
    {
      assert idx[k..][0] == idx[k] && idx[k..][1..] == idx[k + 1..];
      if Normal(idx[k], view.shape[0]).Some? {
        SubView(view, idx[k]);
      }
      match GetFirst(view, idx[k]) {
        case Err(x) => return Err(x);
        case Ok(Sub(u)) => view := u;
      }
    }
    assert idx[|idx|..] == [];
    return Ok(Sub(view));
  }

  // The reversed stride loop. At each point flat and stride are the address and
  // the size of the part of the tuple already seen.
  method FullTuple(v: View, idx: seq<int>) returns (r: Result<Item, Error>)
    requires v.Valid() && |idx| == |v.shape|
    ensures match NormalAll(idx, v.shape)
            case None => r == Err(IndexError)
            case Some(js) =>
              r == match DecodeAt(v, Offset(v.shape, js)) case Ok(e) => Ok(Element(e)) case Err(x) => Err(x)
  {
    var flat, stride := 0, 1;
    var k := |idx|;
    while k > 0
      invariant 0 <= k <= |idx|
      invariant NormalAll(idx[k..], v.shape[k..]).Some?
      invariant flat == Offset(v.shape[k..], NormalAll(idx[k..], v.shape[k..]).value)
      invariant stride == Prod(v.shape[k..])
    {
      k := k - 1;
      var size := v.shape[k];
      var i := idx[k];
      UnfoldNormal(idx[k..], v.shape[k..]);
      assert idx[k..][1..] == idx[k + 1..] && v.shape[k..][1..] == v.shape[k + 1..];
      if i < 0 {
        i := i + size;
      }
      if i < 0 || i >= size {
        NormalSuffix(idx, v.shape, k);
        return Err(IndexError);
      }
      flat := flat + i * stride;
      stride := stride * size;
    }
    assert idx[0..] == idx && v.shape[0..] == v.shape;
    match DecodeAt(v, flat) {
      case Ok(e) => return Ok(Element(e));
      case Err(x) => return Err(x);
    }
  }

  lemma UnfoldNormal(idx: seq<int>, shape: Shape)
    requires |idx| == |shape| >= 1
    ensures NormalAll(idx, shape).Some? <==> Normal(idx[0], shape[0]).Some? && NormalAll(idx[1..], shape[1..]).Some?
    ensures NormalAll(idx, shape).Some? ==>
              var j, js := Normal(idx[0], shape[0]).value, NormalAll(idx[1..], shape[1..]).value;
              && |js| == |idx| - 1
              && NormalAll(idx, shape) == Some([j] + js)
              && Offset(shape, [j] + js) == Offset(shape[1..], js) + j * Prod(shape[1..])
  {
    if NormalAll(idx[1..], shape[1..]).Some? {
      var js := NormalAll(idx[1..], shape[1..]).value;
      NormalAllInBounds(idx[1..], shape[1..]);
      if Normal(idx[0], shape[0]).Some? {
        assert ([Normal(idx[0], shape[0]).value] + js)[1..] == js;
      }
    }
  }

  // An index out of range anywhere makes the whole tuple out of range.
  lemma {:induction false} NormalSuffix(idx: seq<int>, shape: Shape, k: nat)
    requires |idx| == |shape| && k <= |idx| && NormalAll(idx[k..], shape[k..]).None?
    ensures NormalAll(idx, shape).None?
    decreases k
  {
    if k == 0 {
      assert idx[0..] == idx && shape[0..] == shape;
    } else {
      assert idx[1..][k - 1..] == idx[k..] && shape[1..][k - 1..] == shape[k..];
      NormalSuffix(idx[1..], shape[1..], k - 1);
    }
  }

  // ---------------------------------------------------------------- splitting

  lemma {:induction false} SelectSplit(v: View, s: seq<int>, t: seq<int>)
    requires v.Valid() && |s| < |v.shape| && |s + t| <= |v.shape|
    ensures match Select(v, s)
            case Err(x) => x == IndexError && Select(v, s + t) == Err(x)
            case Ok(item) => item.Sub? && item.view.Valid() && |item.view.shape| == |v.shape| - |s|
                             && Select(v, s + t) == Select(item.view, t)
    decreases |s|
  {
    if s == [] {
      assert s + t == t;
    } else {
      assert (s + t)[0] == s[0] && (s + t)[1..] == s[1..] + t;
      if Normal(s[0], v.shape[0]).Some? {
        SubView(v, s[0]);
        SelectSplit(GetFirst(v, s[0]).value.view, s[1..], t);
      }
    }
  }

  // v[s + t] == v[s][t], errors included, wherever the tuple is cut: through the
  // partial branch, the full branch, or one after the other.
  lemma TupleSplit(v: View, s: seq<int>, t: seq<int>)
    requires v.Valid() && |s| < |v.shape|
    ensures match TupleMeaning(v, s)
            case Err(x) => x == IndexError && TupleMeaning(v, s + t) == Err(x)
            case Ok(item) => item.Sub? && item.view.Valid() && TupleMeaning(v, s + t) == TupleMeaning(item.view, t)
  {
    if |s + t| <= |v.shape| {
      SelectSplit(v, s, t);
    } else {
      SelectSplit(v, s, []);
      assert s + [] == s;
    }
  }
}
