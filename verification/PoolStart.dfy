/** Starting the pool: all workers, or none left running. */
module PoolStart {
  import opened Wrappers
  import opened Pool

  datatype StartError = BadSize | StartFailed

  // The worker processes of the machine, named by their socket numbers.
  class Machine {
    var running: set<Wid>
    var nextSockID: nat

    constructor ()
      ensures running == {} && nextSockID == 0 && Valid()
    {
      running, nextSockID := {}, 0;
    }

    ghost predicate Valid()
      reads this
    {
      forall w <- running :: w <= nextSockID
    }

    // A worker on a socket of its own; one that fails to start is killed.
    method Spawn() returns (r: Option<Wid>)
      requires Valid()
      modifies this
      ensures Valid() && nextSockID == old(nextSockID) + 1
      ensures match r
              case Some(w) => w == nextSockID && running == old(running) + {w}
              case None => running == old(running)
    {
      nextSockID := nextSockID + 1;
      var ready: bool := *;
      if ready {
        running := running + {nextSockID};
        return Some(nextSockID);
      }
      return None;
    }

    method Shutdown(w: Wid)
      requires Valid() && w in running
      modifies this`running
      ensures Valid() && running == old(running) - {w}
    {
      running := running - {w};
    }
  }

  function Started(results: seq<Option<Wid>>): seq<Wid> {
    if results == [] then []
    else
      var last := results[|results| - 1];
      Started(results[..|results| - 1]) + (if last.Some? then [last.value] else [])
  }

  function Members(ws: seq<Wid>): set<Wid> { set w | w in ws }

  lemma StartedOne(results: seq<Option<Wid>>, r: Option<Wid>)
    ensures Started(results + [r]) == Started(results) + (if r.Some? then [r.value] else [])
  {
    assert (results + [r])[..|results|] == results;
  }

  // Results arrive in any order; the same workers have started.
  lemma {:induction false} StartedMembers(results: seq<Option<Wid>>, w: Wid)
    ensures w in Started(results) <==> Some(w) in results
  {
    if results != [] {
      var init, last := results[..|results| - 1], results[|results| - 1];
      StartedMembers(init, w);
      assert results == init + [last];
      StartedOne(init, last);
    }
  }

  lemma {:induction false} AllStarted(results: seq<Option<Wid>>)
    requires None !in results
    ensures |Started(results)| == |results|
  {
    if results != [] {
      AllStarted(results[..|results| - 1]);
      assert results[|results| - 1] in results;
    }
  }

  // No two results name the same worker.
  ghost predicate OneEach(results: seq<Option<Wid>>) {
    forall i, j | 0 <= i < j < |results| :: results[i].Some? ==> results[i] != results[j]
  }

  lemma {:induction false} StartedDistinct(results: seq<Option<Wid>>)
    requires OneEach(results)
    ensures Distinct(Started(results))
  {
    if results != [] {
      var init, last := results[..|results| - 1], results[|results| - 1];
      StartedDistinct(init);
      assert results == init + [last];
      StartedOne(init, last);
      if last.Some? {
        StartedMembers(init, last.value);
      }
    }
  }

  // Start `size` workers side by side and wait for all of them.
  method StartAll(m: Machine, size: nat) returns (results: seq<Option<Wid>>)
    requires m.Valid()
    modifies m
    ensures m.Valid() && |results| == size && OneEach(results)
    ensures Members(Started(results)) !! old(m.running)
    ensures m.running == old(m.running) + Members(Started(results))
  {
    results := [];
    for i := 0 to size
      invariant m.Valid() && |results| == i && OneEach(results)
      invariant forall r <- results :: r.Some? ==> old(m.nextSockID) < r.value <= m.nextSockID
      invariant old(m.nextSockID) <= m.nextSockID
      invariant m.running == old(m.running) + Members(Started(results))
    {
      var r := m.Spawn();
      StartedOne(results, r);
      results := results + [r];
    }
    forall w | w in Started(results) ensures w > old(m.nextSockID) {
      StartedMembers(results, w);
    }
    results := Arrivals(results);
  }

  // The order in which they report is any order.
  method Arrivals(results: seq<Option<Wid>>) returns (order: seq<Option<Wid>>)
    requires OneEach(results)
    ensures |order| == |results| && OneEach(order)
    ensures Members(Started(order)) == Members(Started(results))
  {
    order := [];
    var left := results;
    while left != []
      invariant |order| + |left| == |results| && OneEach(order + left)
      invariant forall r :: r in order + left <==> r in results
      decreases |left|
    {
      var i :| 0 <= i < |left|;
      ghost var all := order + left;
      order, left := order + [left[i]], left[..i] + left[i + 1..];
      Moved(all, order + left, |order| - 1, |order| - 1 + i);
    }
    assert order + [] == order;
    forall w ensures w in Started(order) <==> w in Started(results) {
      StartedMembers(order, w);
      StartedMembers(results, w);
    }
  }

  // Bringing the element at k forward to place p.
  lemma Moved(a: seq<Option<Wid>>, b: seq<Option<Wid>>, p: nat, k: nat)
    requires p <= k < |a| && OneEach(a)
    requires b == a[..p] + [a[k]] + (a[p..k] + a[k + 1..])
    ensures |b| == |a| && OneEach(b) && forall r :: r in b <==> r in a
  {
    assert forall j | 0 <= j < |a| ::
        b[j] == if j < p then a[j] else if j == p then a[k] else if j <= k then a[j - 1] else a[j];
    forall r | r in a ensures r in b {
      var j :| 0 <= j < |a| && a[j] == r;
      assert b[if j < p then j else if j < k then j + 1 else if j == k then p else j] == r;
    }
  }

  // NewPool hands out a full pool of distinct running workers, or an error with
  // none of the workers it started still running.
  method NewPool(m: Machine, size: int) returns (r: Result<State, StartError>)
    requires m.Valid()
    modifies m
    ensures m.Valid()
    ensures size < 1 ==> r == Err(BadSize) && m.nextSockID == old(m.nextSockID)
    ensures size >= 1 ==> r != Err(BadSize)
    ensures r.Ok? ==>
              && Initial(r.value) && r.value.size == size
              && Members(r.value.queue) !! old(m.running)
              && m.running == old(m.running) + Members(r.value.queue)
    ensures r.Err? ==> m.running == old(m.running)
  {
    if size < 1 {
      return Err(BadSize);
    }
    var results := StartAll(m, size);
    var started: seq<Wid> := [];
    var failed := false;
    for i := 0 to |results|
      invariant started == Started(results[..i])
      invariant failed <==> None in results[..i]
      modifies {}
    {
      assert results[..i + 1] == results[..i] + [results[i]];
      StartedOne(results[..i], results[i]);
      if results[i].None? {
        failed := true;
      } else {
        started := started + [results[i].value];
      }
    }
    assert results[..|results|] == results;
    StartedDistinct(results);
    if failed {
      StopAll(m, started);
      return Err(StartFailed);
    }
    AllStarted(results);
    var queue: seq<Wid> := [];
    for i := 0 to |started|
      invariant queue == started[..i] && |queue| <= size
      modifies {}
    {
      assert started[..i + 1] == started[..i] + [started[i]];
      queue := queue + [started[i]];
    }
    assert started[..|started|] == started;
    return Ok(Fresh(size, queue));
  }

  method StopAll(m: Machine, started: seq<Wid>)
    requires m.Valid() && Distinct(started) && Members(started) <= m.running
    modifies m`running
    ensures m.Valid() && m.running == old(m.running) - Members(started)
  {
    for i := 0 to |started|
      invariant m.Valid() && m.running == old(m.running) - Members(started[..i])
    {
      assert started[..i + 1] == started[..i] + [started[i]];
      assert started[i] in Members(started) && started[i] !in started[..i];
      m.Shutdown(started[i]);
    }
    assert started[..|started|] == started;
  }

  function Fresh(size: nat, queue: seq<Wid>): State {
    State(size, queue, false, false, NotClosing, map[], map w | w in queue :: [], {}, 0, 0, map[], map[])
  }
}
