/** Slicing a one-dimensional view. */
module TensorSlices {
  import opened Framing
  import opened Wrappers
  import opened RowMajor
  import opened TensorView
  import opened TensorLists

  datatype PySlice = PySlice(start: Option<int>, stop: Option<int>, step: Option<int>)

  function Clamp(i: Option<int>, n: nat, lower: int, upper: int, default: int): int {
    match i
    case None => default
    case Some(x) =>
      var y := if x < 0 then x + n else x;
      if y < lower then lower else if y > upper then upper else y
  }

  // slice.indices(n)
  function Indices(sl: PySlice, n: nat): Result<(int, int, int), Error> {
    var step := match sl.step case None => 1 case Some(k) => k;
    if step == 0 then Err(ValueError)
    else
      var lower, upper := if step < 0 then -1 else 0, if step < 0 then n - 1 else n;
      Ok((Clamp(sl.start, n, lower, upper, if step < 0 then upper else lower),
          Clamp(sl.stop, n, lower, upper, if step < 0 then lower else upper), step))
  }

  predicate Before(i: int, stop: int, step: int) {
    (step > 0 && i < stop) || (step < 0 && i > stop)
  }

  // range(start, stop, step)
  function Range(start: int, stop: int, step: int): seq<int>
    requires step != 0
    decreases if step > 0 then stop - start else start - stop
  {
    if Before(start, stop, step) then [start] + Range(start + step, stop, step) else []
  }

  // The positions a slice selects from n elements, in order.
  function Positions(sl: PySlice, n: nat): (p: Option<seq<nat>>)
    ensures p.Some? <==> sl.step != Some(0)
    ensures p.Some? ==> forall k | 0 <= k < |p.value| :: p.value[k] < n
  {
    match Indices(sl, n)
    case Err(_) => None
    case Ok((start, stop, step)) =>
      IndicesInside(sl, n);
      RangeInside(start, stop, step, n);
      Some(Range(start, stop, step))
  }

  lemma IndicesInside(sl: PySlice, n: nat)
    requires Indices(sl, n).Ok?
    ensures var (start, stop, step) := Indices(sl, n).value;
            step != 0 && (if step > 0 then 0 <= start <= n && 0 <= stop <= n else -1 <= start < n && -1 <= stop < n)
  {
  }

  lemma {:induction false} RangeInside(start: int, stop: int, step: int, n: nat)
    requires step != 0
    requires if step > 0 then 0 <= start && stop <= n else -1 <= stop && start < n
    ensures forall k | 0 <= k < |Range(start, stop, step)| :: 0 <= Range(start, stop, step)[k] < n
    decreases if step > 0 then stop - start else start - stop
  {
    if Before(start, stop, step) {
      RangeInside(start + step, stop, step, n);
    }
  }

  // The k-th position is k steps from the start, and the positions end where the
  // next one would reach the stop.
  lemma {:induction false} RangeAt(start: int, stop: int, step: int, k: nat)
    requires step != 0
    ensures var r := Range(start, stop, step);
            && (k < |r| <==> Before(start + k * step, stop, step))
            && (k < |r| ==> r[k] == start + k * step)
    decreases k
  {
    if Before(start, stop, step) {
      if k > 0 {
        RangeAt(start + step, stop, step, k - 1);
        assert start + step + (k - 1) * step == start + k * step by { assert (k - 1) * step == k * step - step; }
      }
    } else {
      assert step > 0 ==> k * step >= 0;
      assert step < 0 ==> k * step <= 0 by { if step < 0 { assert k * -step >= 0; } }
    }
  }

  // With step 1 the positions are those from start up to stop, counted from the
  // end when negative; ends beyond the list need no clamping in this statement.
  lemma UnitStepPositions(sl: PySlice, n: nat, p: int)
    requires sl.step == None || sl.step == Some(1)
    ensures var lo := match sl.start case None => 0 case Some(x) => if x < 0 then x + n else x;
            var hi := match sl.stop case None => n case Some(x) => if x < 0 then x + n else x;
            p in Positions(sl, n).value <==> 0 <= p < n && lo <= p < hi
  {
    var (start, stop, step) := Indices(sl, n).value;
    var r := Range(start, stop, 1);
    if p >= start {
      RangeAt(start, stop, 1, p - start);
    }
    if p in r {
      var k :| 0 <= k < |r| && r[k] == p;
      RangeAt(start, stop, 1, k);
    }
  }

  // An end of a slice, counted from the end of n elements when negative.
  function End(i: Option<int>, n: nat, omitted: int): int {
    match i
    case None => omitted
    case Some(x) => if x < 0 then x + n else x
  }

  // Which positions a slice selects from n elements. Going up by k: from the start,
  // or the first element, to below the stop, every k-th; going down: from the start,
  // or the last element, to above the stop, every k-th.
  predicate Selected(sl: PySlice, n: nat, k: int, p: int)
    requires k != 0
  {
    0 <= p < n &&
    if k > 0 then
      var from, to := Max(End(sl.start, n, 0), 0), End(sl.stop, n, n);
      from <= p < to && (p - from) % k == 0
    else
      var from, to := Min(End(sl.start, n, n - 1), n - 1), End(sl.stop, n, -1);
      to < p <= from && (from - p) % -k == 0
  }

  function Max(a: int, b: int): int { if a < b then b else a }

  function Min(a: int, b: int): int { if a < b then a else b }

  // Those, in the direction of the step, and no others.
  lemma SliceSelects(sl: PySlice, n: nat, k: int)
    requires k != 0 && (sl.step == Some(k) || (sl.step == None && k == 1))
    ensures Positions(sl, n).Some?
    ensures var r := Positions(sl, n).value;
            && (forall p: int :: p in r <==> Selected(sl, n, k, p))
            && (forall i, j | 0 <= i < j < |r| :: if k > 0 then r[i] < r[j] else r[i] > r[j])
  {
    var (start, stop, step) := Indices(sl, n).value;
    var r := Positions(sl, n).value;
    forall p: int ensures p in r <==> Selected(sl, n, k, p) {
      InRangeIff(start, stop, k, p);
      SelectedIff(sl, n, k, p);
    }
    forall i, j | 0 <= i < j < |r| ensures if k > 0 then r[i] < r[j] else r[i] > r[j] {
      RangeAt(start, stop, k, i);
      RangeAt(start, stop, k, j);
      Steps(i, j, k);
    }
  }

  lemma Steps(i: nat, j: nat, k: int)
    requires i < j && k != 0
    ensures if k > 0 then i * k < j * k else i * k > j * k
  {
    if k > 0 {
      MulLess(i, j, k);
    } else {
      MulLess(i, j, -k);
      assert i * -k == -(i * k) && j * -k == -(j * k);
    }
  }

  // A range holds what lies before its stop a whole number of steps from its start.
  lemma InRangeIff(start: int, stop: int, k: int, p: int)
    requires k != 0
    ensures p in Range(start, stop, k) <==>
            if k > 0 then start <= p < stop && (p - start) % k == 0 else stop < p <= start && (start - p) % -k == 0
  {
    hide Range;
    if p in Range(start, stop, k) {
      InRangeThen(start, stop, k, p);
    }
    var d, m := if k > 0 then p - start else start - p, if k > 0 then k else -k;
    if d >= 0 && d % m == 0 && Before(p, stop, k) {
      StepsAway(start, k, p, d / m);
      ThenInRange(start, stop, k, p, d / m);
    }
  }

  lemma InRangeThen(start: int, stop: int, k: int, p: int)
    requires k != 0 && p in Range(start, stop, k)
    ensures Before(p, stop, k)
    ensures if k > 0 then p >= start && (p - start) % k == 0 else p <= start && (start - p) % -k == 0
  {
    var r := Range(start, stop, k);
    var i :| 0 <= i < |r| && r[i] == p;
    RangeAt(start, stop, k, i);
    WholeSteps(start, k, i);
    hide Range;
    assert p - start == i * k;
  }

  lemma StepsAway(start: int, k: int, p: int, i: int)
    requires k != 0 && i == (if k > 0 then (p - start) / k else (start - p) / -k)
    requires if k > 0 then (p - start) % k == 0 else (start - p) % -k == 0
    ensures start + i * k == p
  {
    if k > 0 {
      assert p - start == i * k;
    } else {
      assert start - p == i * -k;
      assert i * -k == -(i * k);
    }
  }

  lemma ThenInRange(start: int, stop: int, k: int, p: int, i: nat)
    requires k != 0 && p == start + i * k && Before(p, stop, k)
    ensures p in Range(start, stop, k)
  {
    RangeAt(start, stop, k, i);
    hide Range;
  }

  lemma WholeSteps(start: int, k: int, i: nat)
    requires k != 0
    ensures if k > 0 then i * k >= 0 && i * k % k == 0 else i * k <= 0 && (-(i * k)) % -k == 0
  {
    if k > 0 {
      MulMono(0, i, k);
      DivOfSum(i, k, 0);
    } else {
      MulMono(0, i, -k);
      DivOfSum(i, -k, 0);
      assert i * -k == -(i * k);
    }
  }

  lemma SelectedIff(sl: PySlice, n: nat, k: int, p: int)
    requires k != 0 && (sl.step == Some(k) || (sl.step == None && k == 1))
    ensures var (start, stop, step) := Indices(sl, n).value;
            step == k &&
            (Selected(sl, n, k, p) <==>
             if k > 0 then start <= p < stop && (p - start) % k == 0
             else stop < p <= start && (start - p) % -k == 0)
  {
  }

  // v[::-1] is v reversed.
  lemma Reversal(n: nat)
    ensures var r := Positions(PySlice(None, None, Some(-1)), n);
            r.Some? && |r.value| == n && forall i | 0 <= i < n :: r.value[i] == n - 1 - i
  {
    var r := Positions(PySlice(None, None, Some(-1)), n).value;
    RangeAt(n - 1, -1, -1, n);
    if n > 0 {
      RangeAt(n - 1, -1, -1, n - 1);
    }
    forall i | 0 <= i < n && i < |r| ensures r[i] == n - 1 - i {
      RangeAt(n - 1, -1, -1, i);
    }
  }

  // ---------------------------------------------------------------- list[slice]

  // Python's list[slice].
  function ListSlice<T>(s: seq<T>, sl: PySlice): Option<seq<T>> {
    match Positions(sl, |s|)
    case None => None
    case Some(p) => Some(seq(|p|, k requires 0 <= k < |p| => s[p[k]]))
  }

  // ---------------------------------------------------------------- view[slice]

  // The bytes of the elements at the given positions, in order.
  function Gather(v: View, p: seq<nat>): (b: bytes)
    requires v.Valid() && forall k | 0 <= k < |p| :: p[k] < Prod(v.shape)
    ensures |b| == |p| * v.IS()
  {
    if p == [] then []
    else
      assert |p| * v.IS() == (|p| - 1) * v.IS() + v.IS();
      assert forall k | 0 <= k < |p| - 1 :: p[..|p| - 1][k] == p[k];
      Gather(v, p[..|p| - 1]) + ItemAt(v, p[|p| - 1])
  }

  lemma RowSize(v: View)
    requires |v.shape| == 1
    ensures Prod(v.shape) == v.shape[0]
  {
    assert v.shape[1..] == [];
  }

  // What slicing means.
  function SliceMeaning(v: View, sl: PySlice): Result<View, Error>
    requires v.Valid()
  {
    if |v.shape| != 1 then Err(NotImplemented)
    else
      match Positions(sl, v.shape[0])
      case None => Err(ValueError)
      case Some(p) =>
        RowSize(v);
        Ok(View(Gather(v, p), [|p|], v.dtype))
  }

  // view[slice] as written: a byte range when the step is 1, else a loop that
  // gathers the pieces.
  method GetSlice(v: View, sl: PySlice) returns (r: Result<View, Error>)
    requires v.Valid()
    ensures r == SliceMeaning(v, sl)
  {
    if |v.shape| != 1 {
      return Err(NotImplemented);
    }
    RowSize(v);
    match Indices(sl, v.shape[0]) {
      case Err(x) => return Err(x);
      case Ok((start, stop, step)) =>
        IndicesInside(sl, v.shape[0]);
        var s := v.IS();
        if step == 1 {
          var size := if stop - start > 0 then stop - start else 0;
          FastPath(v, start, stop);
          return Ok(View(Slice(v.data, start * s, stop * s), [size], v.dtype));
        }
        var pieces := GatherLoop(v, start, stop, step);
        return Ok(View(pieces.0, [pieces.1], v.dtype));
    }
  }

  method GatherLoop(v: View, start: int, stop: int, step: int) returns (r: (bytes, nat))
    requires v.Valid() && |v.shape| == 1 && Prod(v.shape) == v.shape[0] && step != 0
    requires if step > 0 then 0 <= start && stop <= v.shape[0] else -1 <= stop && start < v.shape[0]
    ensures forall k | 0 <= k < |Range(start, stop, step)| :: 0 <= Range(start, stop, step)[k] < v.shape[0]
    ensures r == (Gather(v, Range(start, stop, step)), |Range(start, stop, step)|)
  {
    RangeInside(start, stop, step, v.shape[0]);
    ghost var all := Range(start, stop, step);
    var joined: bytes, count: nat := [], 0;
    var i := start;
    assert all[..0] == [];
    while Before(i, stop, step)
      invariant count <= |all| && all[count..] == Range(i, stop, step)
      invariant joined == Gather(v, all[..count])
      decreases |all| - count
    {
      assert all[count..][0] == i && all[count..][1..] == all[count + 1..];
      assert all[..count + 1][..count] == all[..count];
      joined := joined + ItemAt(v, i);
      count := count + 1;
      i := i + step;
    }
    assert all[..count] == all;
    return (joined, count);
  }

  // The step-1 fast path gives the data and the shape of the general loop.
  lemma {:induction false} FastPath(v: View, start: int, stop: int)
    requires v.Valid() && |v.shape| == 1 && Prod(v.shape) == v.shape[0]
    requires 0 <= start <= v.shape[0] && 0 <= stop <= v.shape[0]
    ensures var p := Range(start, stop, 1);
            && |p| == (if stop - start > 0 then stop - start else 0)
            && (forall k | 0 <= k < |p| :: 0 <= p[k] < v.shape[0])
            && Slice(v.data, start * v.IS(), stop * v.IS()) == Gather(v, p)
    decreases stop
  {
    var s := v.IS();
    RangeInside(start, stop, 1, v.shape[0]);
    if start >= stop {
      MulMono(stop, start, s);
    } else {
      UnitRange(start, stop);
      FastPath(v, start, stop - 1);
      var p := Range(start, stop, 1);
      assert Gather(v, p) == Gather(v, p[..|p| - 1]) + ItemAt(v, stop - 1);
      hide Range, Gather, Slice, ElemAt;
      MulMono(stop, v.shape[0], s);
      LastPiece(v.data, start, stop, s);
    }
  }

  // A range of elements is all but its last, and its last.
  lemma LastPiece(data: bytes, start: nat, stop: nat, s: nat)
    requires start < stop && stop * s <= |data|
    ensures Slice(data, start * s, stop * s) == Slice(data, start * s, (stop - 1) * s) + ElemAt(data, s, stop - 1)
  {
    MulMono(start, stop - 1, s);
    NextMultiple(stop, s);
    JoinSlices(data, start * s, (stop - 1) * s, stop * s);
  }

  lemma JoinSlices(data: bytes, lo: nat, mid: nat, hi: nat)
    requires lo <= mid <= hi <= |data|
    ensures Slice(data, lo, hi) == Slice(data, lo, mid) + Slice(data, mid, hi)
  {
  }

  lemma NextMultiple(count: nat, s: nat)
    requires count >= 1
    ensures count * s == (count - 1) * s + s
  {
  }

  lemma UnitRange(start: int, stop: int)
    requires start < stop
    ensures var p := Range(start, stop, 1);
            |p| == stop - start && p[|p| - 1] == stop - 1 && p[..|p| - 1] == Range(start, stop - 1, 1)
  {
    var p, q := Range(start, stop, 1), Range(start, stop - 1, 1);
    RangeAt(start, stop, 1, stop - start);
    RangeAt(start, stop, 1, stop - start - 1);
    RangeAt(start, stop - 1, 1, stop - start - 1);
    if stop - 1 > start {
      RangeAt(start, stop - 1, 1, stop - start - 2);
    }
    forall k | 0 <= k < |q| ensures p[k] == q[k] {
      RangeAt(start, stop, 1, k);
      RangeAt(start, stop - 1, 1, k);
    }
  }

  // ---------------------------------------------------------------- commutation

  lemma {:induction false} GatherItems(v: View, p: seq<nat>, k: nat)
    requires v.Valid() && (forall i | 0 <= i < |p| :: p[i] < Prod(v.shape)) && k < |p|
    ensures ElemAt(Gather(v, p), v.IS(), k) == ItemAt(v, p[k])
    decreases |p|
  {
    var m := |p| - 1;
    var init := Gather(v, p[..m]);
    assert Gather(v, p) == init + ItemAt(v, p[m]);
    if k < m {
      GatherItems(v, p[..m], k);
    }
    hide Gather, ItemAt, ElemAt;
    ElemOfJoin(init, ItemAt(v, p[m]), m, v.IS(), k);
  }

  lemma ElemOfJoin(init: bytes, last: bytes, m: nat, s: nat, k: nat)
    requires |init| == m * s && |last| == s && k <= m
    ensures ElemAt(init + last, s, k) == if k < m then ElemAt(init, s, k) else last
  {
    if k < m {
      MulLess(k, m, s);
    }
    SliceOfJoin(init, last, k * s, k * s + s);
  }

  lemma SliceOfJoin(a: bytes, b: bytes, lo: nat, hi: nat)
    requires lo <= hi
    ensures hi <= |a| ==> Slice(a + b, lo, hi) == Slice(a, lo, hi)
    ensures lo == |a| && hi == |a| + |b| ==> Slice(a + b, lo, hi) == b
  {
    if hi <= |a| && lo < hi {
      assert (a + b)[lo..hi] == a[lo..hi];
    }
  }

  // v[sl].tolist() == v.tolist()[sl], for every slice: negative steps, omitted ends
  // and ends out of range included; and both refuse a step of 0, and nothing else.
  lemma SliceCommutes(v: View, sl: PySlice)
    requires v.Valid() && |v.shape| == 1
    ensures ToList(v).Branch?
    ensures var r, l := SliceMeaning(v, sl), ListSlice(ToList(v).items, sl);
            if sl.step == Some(0) then r == Err(ValueError) && l == None
            else
              && r.Ok? && r.value.Valid() && r.value.dtype == v.dtype
              && l.Some? && ToList(r.value) == Branch(l.value)
  {
    if sl.step != Some(0) {
      StepCommutes(v, sl);
    }
  }

  lemma StepCommutes(v: View, sl: PySlice)
    requires v.Valid() && |v.shape| == 1 && sl.step != Some(0)
    ensures var r := SliceMeaning(v, sl);
            && r.Ok? && r.value.Valid() && r.value.dtype == v.dtype
            && ToList(v).Branch? && ListSlice(ToList(v).items, sl).Some?
            && ToList(r.value) == Branch(ListSlice(ToList(v).items, sl).value)
  {
    RowSize(v);
    var p := Positions(sl, v.shape[0]).value;
    var u := SliceMeaning(v, sl).value;
    RowSize(u);
    var want := ListSlice(ToList(v).items, sl).value;
    forall k | 0 <= k < |p| ensures ToList(u).items[k] == want[k] {
      GatherItems(v, p, k);
      assert ToList(u).items[k] == FlatLeaf(u, k);
      assert want[k] == ToList(v).items[p[k]] == FlatLeaf(v, p[k]);
    }
    assert ToList(u).items == want;
  }
}
