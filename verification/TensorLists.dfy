/** tolist, iteration and slicing of a view, against the nested-list meaning. */
module TensorLists {
  import opened Wrappers
  import opened RowMajor
  import opened TensorView

  datatype Nested = Leaf(elem: Elem) | Branch(items: seq<Nested>)

  // All elements in flat order.
  function Items(v: View): (s: seq<Elem>)
    requires v.Valid()
    ensures |s| == Prod(v.shape) && forall k | 0 <= k < |s| :: s[k] == ItemAt(v, k)
  {
    seq(Prod(v.shape), k requires 0 <= k < Prod(v.shape) => ItemAt(v, k))
  }

  // The i-th part along the first axis of a view of rank two or more.
  function Part(v: View, i: nat): (u: View)
    requires v.Valid() && |v.shape| >= 2 && i < v.shape[0]
    ensures u.Valid() && u.shape == v.shape[1..] && GetFirst(v, i) == Ok(Sub(u))
  {
    SubView(v, i);
    GetFirst(v, i).value.view
  }

  // tolist: element, list of elements, or list of the converted parts.
  function ToList(v: View): Nested
    requires v.Valid()
    decreases |v.shape|
  {
    if v.shape == [] then Leaf(ItemAt(v, 0))
    else if |v.shape| == 1 then Branch(seq(v.shape[0], i requires 0 <= i < v.shape[0] => FlatLeaf(v, i)))
    else Branch(seq(v.shape[0], i requires 0 <= i < v.shape[0] => ToList(Part(v, i))))
  }

  function FlatLeaf(v: View, i: nat): Nested
    requires v.Valid() && |v.shape| == 1 && i < v.shape[0]
  {
    assert Prod(v.shape) == v.shape[0] by { FirstElement(v, i); }
    Leaf(ItemAt(v, i))
  }

  // ---------------------------------------------------------------- the list has the view's elements

  // t[i0][i1]...
  function At(t: Nested, idx: seq<nat>): Option<Nested>
    decreases |idx|
  {
    if idx == [] then Some(t)
    else if t.Branch? && idx[0] < |t.items| then At(t.items[idx[0]], idx[1..])
    else None
  }

  // Indexing the list like the view reads the element at the row-major address.
  lemma {:induction false} ListIsOffset(v: View, idx: seq<nat>)
    requires v.Valid() && InBounds(v.shape, idx)
    ensures Offset(v.shape, idx) < Prod(v.shape)
    ensures At(ToList(v), idx) == Some(Leaf(ItemAt(v, Offset(v.shape, idx))))
    decreases |idx|
  {
    OffsetInside(v.shape, idx);
    if |idx| == 1 {
      FirstElement(v, idx[0]);
      assert Offset(v.shape, idx) == idx[0] * Prod(v.shape[1..]) + Offset(v.shape[1..], idx[1..]) == idx[0];
      assert At(ToList(v).items[idx[0]], []) == Some(FlatLeaf(v, idx[0]));
    } else if |idx| >= 2 {
      var u := Part(v, idx[0]);
      SubView(v, idx[0]);
      ListIsOffset(u, idx[1..]);
      assert ToList(v).items[idx[0]] == ToList(u);
    }
  }

  // The view, indexed by a tuple, and its list, indexed alike, agree.
  lemma ListAgreesWithView(v: View, idx: seq<int>)
    requires v.Valid() && |idx| == |v.shape| >= 1 && NormalAll(idx, v.shape).Some?
    ensures var r := TupleMeaning(v, idx);
            r.Ok? && r.value.Element? && At(ToList(v), NormalAll(idx, v.shape).value) == Some(Leaf(r.value.elem))
  {
    SelectIsOffset(v, idx);
    NormalAllInBounds(idx, v.shape);
    ListIsOffset(v, NormalAll(idx, v.shape).value);
  }

  // ---------------------------------------------------------------- flattening

  function Flatten(t: Nested): seq<Elem> {
    match t
    case Leaf(e) => [e]
    case Branch(items) => FlattenAll(items)
  }

  function FlattenAll(ts: seq<Nested>): seq<Elem> {
    if ts == [] then [] else Flatten(ts[0]) + FlattenAll(ts[1..])
  }

  lemma {:induction false} FlattenSnoc(ts: seq<Nested>, t: Nested)
    ensures FlattenAll(ts + [t]) == FlattenAll(ts) + Flatten(t)
  {
    if ts == [] {
      assert ts + [t] == [t] && FlattenAll([t][1..]) == [];
    } else {
      FlattenSnoc(ts[1..], t);
      assert (ts + [t])[1..] == ts[1..] + [t];
    }
  }

  // The i-th piece of n elements.
  function Piece(s: seq<Elem>, i: nat, n: nat): seq<Elem>
    requires i * n + n <= |s|
  {
    MulMono(0, i, n);
    s[i * n..i * n + n]
  }

  lemma PieceOfPrefix(s: seq<Elem>, i: nat, m: nat, n: nat)
    requires i < m && m * n <= |s|
    ensures i * n + n <= m * n && Piece(s[..m * n], i, n) == Piece(s, i, n)
  {
    MulLess(i, m, n);
    var lo, hi, e := i * n, i * n + n, m * n;
    assert s[..e][lo..hi] == s[lo..hi];
  }

  // Parts of equal length, each the corresponding piece of s, flatten to s.
  lemma {:induction false} FlattenPieces(ts: seq<Nested>, s: seq<Elem>, n: nat)
    requires |s| == |ts| * n
    requires forall i | 0 <= i < |ts| :: i * n + n <= |s| && Flatten(ts[i]) == Piece(s, i, n)
    ensures FlattenAll(ts) == s
  {
    if ts != [] {
      var m := |ts| - 1;
      var init := ts[..m];
      OneMore(m, n);
      forall i | 0 <= i < m ensures i * n + n <= m * n && Flatten(init[i]) == Piece(s[..m * n], i, n) {
        PieceOfPrefix(s, i, m, n);
      }
      FlattenPieces(init, s[..m * n], n);
      FlattenSnoc(init, ts[m]);
      assert ts == init + [ts[m]] && s == s[..m * n] + Piece(s, m, n);
    }
  }

  lemma OneMore(m: nat, n: nat)
    ensures (m + 1) * n == m * n + n && m * n >= 0
  {
  }

  // Flattening tolist gives every element in flat order, for every shape, zero
  // lengths included.
  lemma {:induction false} FlattenToList(v: View)
    requires v.Valid()
    ensures Flatten(ToList(v)) == Items(v)
    decreases |v.shape|
  {
    if |v.shape| == 1 {
      FlattenRow(v);
    } else if |v.shape| >= 2 {
      hide ToList, Flatten, ItemAt, GetFirst, Prod, Items, Part;
      var ts, n := ToList(v).items, Prod(v.shape[1..]);
      ListLength(v);
      forall i | 0 <= i < |ts| ensures i * n + n <= |Items(v)| && Flatten(ts[i]) == Piece(Items(v), i, n) {
        PartFlattens(v, i);
      }
      FlattenPieces(ts, Items(v), n);
      FlattenBranch(v);
    }
  }

  lemma ListLength(v: View)
    requires v.Valid() && |v.shape| >= 2
    ensures ToList(v).Branch? && |ToList(v).items| == v.shape[0]
    ensures forall i | 0 <= i < v.shape[0] :: ToList(v).items[i] == ToList(Part(v, i))
    ensures |Items(v)| == v.shape[0] * Prod(v.shape[1..])
  {
  }

  lemma FlattenBranch(v: View)
    requires v.Valid() && |v.shape| >= 1
    ensures ToList(v).Branch? && Flatten(ToList(v)) == FlattenAll(ToList(v).items)
  {
  }

  lemma FlattenRow(v: View)
    requires v.Valid() && |v.shape| == 1
    ensures Flatten(ToList(v)) == Items(v)
  {
    assert Prod(v.shape) == v.shape[0] * Prod(v.shape[1..]) == v.shape[0];
    var ts := ToList(v).items;
    forall i | 0 <= i < |ts| ensures i * 1 + 1 <= |Items(v)| && Flatten(ts[i]) == Piece(Items(v), i, 1) {
      assert ts[i] == FlatLeaf(v, i);
    }
    FlattenPieces(ts, Items(v), 1);
  }

  lemma PartFlattens(v: View, i: nat)
    requires v.Valid() && |v.shape| >= 2 && i < v.shape[0]
    ensures var n := Prod(v.shape[1..]);
            i * n + n <= |Items(v)| && Flatten(ToList(Part(v, i))) == Piece(Items(v), i, n)
    decreases |v.shape|, 0
  {
    hide ToList, Flatten, Prod, GetFirst, ItemAt;
    FlattenToList(Part(v, i));
    PartIsPiece(v, i);
  }

  lemma PartIsPiece(v: View, i: nat)
    requires v.Valid() && |v.shape| >= 2 && i < v.shape[0]
    ensures var n := Prod(v.shape[1..]);
            i * n + n <= |Items(v)| && Items(Part(v, i)) == Piece(Items(v), i, n)
  {
    SubView(v, i);
    hide Prod, GetFirst, ItemAt, Items, Part;
    var n, u := Prod(v.shape[1..]), Part(v, i);
    PieceAt(Items(v), i, n);
    forall k | 0 <= k < n ensures Items(u)[k] == Piece(Items(v), i, n)[k] {
    }
    assert Items(u) == Piece(Items(v), i, n);
  }

  lemma PieceAt(s: seq<Elem>, i: nat, n: nat)
    requires i * n + n <= |s|
    ensures |Piece(s, i, n)| == n && forall k | 0 <= k < n :: 0 <= i * n + k < |s| && Piece(s, i, n)[k] == s[i * n + k]
  {
    MulMono(0, i, n);
  }

  // ---------------------------------------------------------------- iteration

  // __iter__: self[i] for each i, or the single element of a 0-d view.
  method Iterate(v: View) returns (items: seq<Item>)
    requires v.Valid()
    ensures items == IterItems(v)
  {
    if v.shape == [] {
      DecodeInside(v, 0);
      return [Element(DecodeAt(v, 0).value)];
    }
    items := [];
    for i := 0 to v.shape[0]
      invariant |items| == i && forall k | 0 <= k < i :: GetFirst(v, k) == Ok(items[k])
    {
      FirstOk(v, i);
      items := items + [GetFirst(v, i).value];
    }
  }

  lemma FirstOk(v: View, i: nat)
    requires v.Valid() && |v.shape| >= 1 && i < v.shape[0]
    ensures GetFirst(v, i).Ok?
    ensures match GetFirst(v, i).value
            case Element(e) => |v.shape| == 1 && Leaf(e) == FlatLeaf(v, i)
            case Sub(u) => |v.shape| >= 2 && u == Part(v, i)
  {
    if |v.shape| == 1 {
      FirstElement(v, i);
    } else {
      SubView(v, i);
    }
  }

  function IterItems(v: View): (s: seq<Item>)
    requires v.Valid()
    ensures v.shape == [] ==> s == [Element(ItemAt(v, 0))]
    ensures v.shape != [] ==> |s| == v.shape[0] && forall k | 0 <= k < |s| :: GetFirst(v, k) == Ok(s[k])
  {
    if v.shape == [] then [Element(ItemAt(v, 0))]
    else
      assert forall i | 0 <= i < v.shape[0] :: GetFirst(v, i).Ok? by {
        forall i | 0 <= i < v.shape[0] ensures GetFirst(v, i).Ok? {
          FirstOk(v, i);
        }
      }
      seq(v.shape[0], i requires 0 <= i < v.shape[0] && GetFirst(v, i).Ok? => GetFirst(v, i).value)
  }

  predicate ValidItem(x: Item) {
    x.Element? || x.view.Valid()
  }

  function Converted(x: Item): Nested
    requires ValidItem(x)
  {
    match x
    case Element(e) => Leaf(e)
    case Sub(u) => ToList(u)
  }

  // What iteration yields, converted, is the list.
  lemma IterationIsList(v: View)
    requires v.Valid()
    ensures forall x <- IterItems(v) :: ValidItem(x)
    ensures if v.shape == [] then |IterItems(v)| == 1 && Converted(IterItems(v)[0]) == ToList(v)
            else ToList(v).Branch? && |ToList(v).items| == |IterItems(v)|
                 && forall i | 0 <= i < |IterItems(v)| ::
                      ValidItem(IterItems(v)[i]) && ToList(v).items[i] == Converted(IterItems(v)[i])
  {
    if v.shape != [] {
      forall i | 0 <= i < |IterItems(v)|
        ensures ValidItem(IterItems(v)[i]) && ToList(v).items[i] == Converted(IterItems(v)[i])
      {
        FirstOk(v, i);
      }
    }
  }
}
