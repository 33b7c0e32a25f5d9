/** The pool's channel is a queue, and an undisturbed Acquire or release comes to
    its end. */
module PoolOrder {
  import opened Wrappers
  import M = Messages
  import opened Pool
  import opened PoolLogs
  import opened PoolRuns

  // ---------------------------------------------------------------- first in, first out

  // The worker a step puts into the channel, if any: that of a Run which has then
  // left. And the worker it takes out.
  function SentBy(s: State, e: Event): seq<Wid> {
    match (e, Next(s, e))
    case (Put(r), Some(t)) =>
      if r in s.agents && s.agents[r].ReleaseChecked? && r in t.agents && t.agents[r].Left?
      then [s.agents[r].w] else []
    case _ => []
  }

  function ReceivedBy(s: State, e: Event): seq<Wid> {
    match (e, Next(s, e))
    case (Take(r), Some(t)) => if r in t.agents && t.agents[r].Taken? then [t.agents[r].w] else []
    case (Drain, Some(t)) => if t.closer.CloserHas? then [t.closer.w] else []
    case _ => []
  }

  function Sent(s: State, es: seq<Event>): seq<Wid>
    requires Run(s, es).Some?
    decreases |es|
  {
    if es == [] then [] else SentBy(s, es[0]) + Sent(Next(s, es[0]).value, es[1..])
  }

  function Received(s: State, es: seq<Event>): seq<Wid>
    requires Run(s, es).Some?
    decreases |es|
  {
    if es == [] then [] else ReceivedBy(s, es[0]) + Received(Next(s, es[0]).value, es[1..])
  }

  lemma QueueStep(s: State, e: Event)
    requires Next(s, e).Some?
    ensures s.queue + SentBy(s, e) == ReceivedBy(s, e) + Next(s, e).value.queue
  {
    if e.Put? || e.Take? || e.Drain? {
      QueueMoves(s, e);
    } else {
      QueueRests(s, e);
    }
  }

  lemma QueueMoves(s: State, e: Event)
    requires Next(s, e).Some? && (e.Put? || e.Take? || e.Drain?)
    ensures s.queue + SentBy(s, e) == ReceivedBy(s, e) + Next(s, e).value.queue
  {
    assert s.queue != [] ==> s.queue == [s.queue[0]] + s.queue[1..];
  }

  lemma QueueRests(s: State, e: Event)
    requires Next(s, e).Some? && !e.Put? && !e.Take? && !e.Drain?
    ensures SentBy(s, e) == ReceivedBy(s, e) == [] && Next(s, e).value.queue == s.queue
  {
    hide Log;
  }

  // Workers leave the channel in the order in which they came: what was there and
  // what was sent is what has been received, followed by what is there.
  lemma {:induction false} FirstInFirstOut(s: State, es: seq<Event>)
    requires Run(s, es).Some?
    ensures s.queue + Sent(s, es) == Received(s, es) + Run(s, es).value.queue
    decreases |es|
  {
    if es != [] {
      QueueStep(s, es[0]);
      var t := Next(s, es[0]).value;
      FirstInFirstOut(t, es[1..]);
      hide Next, SentBy, ReceivedBy;
      Regroup(s.queue, SentBy(s, es[0]), Sent(t, es[1..]), ReceivedBy(s, es[0]), t.queue,
              Received(t, es[1..]) + Run(s, es).value.queue);
      Regroup3(ReceivedBy(s, es[0]), Received(t, es[1..]), Run(s, es).value.queue);
    }
  }

  lemma Regroup(q: seq<Wid>, a: seq<Wid>, b: seq<Wid>, c: seq<Wid>, u: seq<Wid>, v: seq<Wid>)
    requires q + a == c + u && u + b == v
    ensures q + (a + b) == c + v
  {
    assert q + (a + b) == (q + a) + b && (c + u) + b == c + (u + b);
  }

  lemma Regroup3(a: seq<Wid>, b: seq<Wid>, c: seq<Wid>)
    ensures (a + b) + c == a + (b + c)
  {
  }

  // ---------------------------------------------------------------- undisturbed calls

  lemma Cons(s: State, e: Event, t: State, es: seq<Event>)
    requires Next(s, e) == Some(t)
    ensures Run(s, [e] + es) == Run(t, es)
  {
    hide Next;
    assert ([e] + es)[1..] == es;
  }

  lemma Steps3(s: State, e0: Event, s1: State, e1: Event, s2: State, e2: Event, s3: State)
    requires Next(s, e0) == Some(s1) && Next(s1, e1) == Some(s2) && Next(s2, e2) == Some(s3)
    ensures Run(s, [e0, e1, e2]) == Some(s3)
  {
    hide Next;
    Cons(s2, e2, s3, []);
    Cons(s1, e1, s2, [e2]);
    Cons(s, e0, s1, [e1, e2]);
    assert [e2] + [] == [e2] && [e1] + [e2] == [e1, e2] && [e0] + [e1, e2] == [e0, e1, e2];
  }

  lemma Steps2(s: State, e0: Event, s1: State, e1: Event, s2: State)
    requires Next(s, e0) == Some(s1) && Next(s1, e1) == Some(s2)
    ensures Run(s, [e0, e1]) == Some(s2)
  {
    hide Next;
    Cons(s1, e1, s2, []);
    Cons(s, e0, s1, [e1]);
    assert [e1] + [] == [e1] && [e0] + [e1] == [e0, e1];
  }

  lemma Joins(s: State, es: seq<Event>, t: State, fs: seq<Event>, u: State)
    requires Run(s, es) == Some(t) && Run(t, fs) == Some(u)
    ensures Run(s, es + fs) == Some(u)
  {
    hide Next;
    RunConcat(s, es, fs);
  }

  // A worker that must go is shut down.
  lemma Stops(s: State, r: RunId) returns (t: State)
    requires r in s.agents && s.agents[r].MustStop? && s.agents[r].w in s.log
    ensures Run(s, [StopBegin(r), StopEnd(r)]) == Some(t)
    ensures var w := s.agents[r].w;
            && t.queue == s.queue && t.dead == s.dead + {w}
            && t.log == s.log[w := s.log[w] + [Use(ByRun(r), M.OpShutdown)]]
            && r in t.agents && t.agents[r] == if s.agents[r].respawn then Spawning else Left
  {
    var s1 := StepStopBegin(s, r).value;
    t := StepStopEnd(s1, r).value;
    Steps2(s, StopBegin(r), s1, StopEnd(r), t);
  }

  lemma Releases(s: State, r: RunId) returns (t: State)
    requires r in s.agents && s.agents[r].Holding?
    ensures Run(s, [Release(r), CheckRelease(r)]) == Some(t)
    ensures var w := s.agents[r].w;
            t == Step(s, r, if s.flag then MustStop(w, false) else ReleaseChecked(w))
  {
    var s1 := StepRelease(s, r).value;
    t := StepCheckRelease(s1, r).value;
    Steps2(s, Release(r), s1, CheckRelease(r), t);
    assert s.agents[r := Releasing(s.agents[r].w)][r := t.agents[r]] == s.agents[r := t.agents[r]];
  }

  lemma HeldAlive(s: State, r: RunId)
    requires Inv(s) && r in s.agents && s.agents[r].Holding?
    ensures s.agents[r].w in s.log && (!s.flag ==> |s.queue| < s.size && !s.chanClosed)
  {
    assert HeldBy(s, r, s.agents[r].w);
    assert InHandRuns(s) != {} by {
      assert r in InHandRuns(s);
    }
    hide LogsFormed, LogsOwned, StopsMatch, Issues;
  }

  // Release puts the worker at the end of the channel or, once the pool is closed,
  // shuts it down.
  lemma ReleaseReturns(s: State, r: RunId) returns (es: seq<Event>)
    requires Inv(s) && r in s.agents && s.agents[r].Holding?
    ensures Run(s, es).Some?
    ensures var w, t := s.agents[r].w, Run(s, es).value;
            && r in t.agents && t.agents[r].Left? && w in s.log
            && (if s.flag then t.queue == s.queue && t.dead == s.dead + {w}
                               && t.log == s.log[w := s.log[w] + [Use(ByRun(r), M.OpShutdown)]]
                else t.queue == s.queue + [w] && t.log == s.log && t.dead == s.dead)
  {
    HeldAlive(s, r);
    hide Inv, Next;
    var s1 := Releases(s, r);
    var first, rest := [Release(r), CheckRelease(r)], [];
    var t;
    if s.flag {
      t := Stops(s1, r);
      rest := [StopBegin(r), StopEnd(r)];
    } else {
      t := Puts(s1, r);
      rest := [Put(r)];
    }
    Joins(s, first, s1, rest, t);
    es := first + rest;
  }

  lemma Puts(s: State, r: RunId) returns (t: State)
    requires r in s.agents && s.agents[r].ReleaseChecked? && !s.chanClosed && |s.queue| < s.size
    ensures Run(s, [Put(r)]) == Some(t)
    ensures t == Step(s, r, Left).(queue := s.queue + [s.agents[r].w])
  {
    t := StepPut(s, r).value;
    OneStep(s, Put(r));
  }

  // Acquire hands out the first worker of the channel if it answers, and otherwise
  // one spawned in its place, after shutting it down.
  lemma AcquireReturns(s: State, r: RunId, answers: bool, other: Wid) returns (es: seq<Event>)
    requires Inv(s) && !s.flag && s.queue != [] && r !in s.agents && other !in s.log
    ensures Run(s, es).Some?
    ensures var w, t := s.queue[0], Run(s, es).value;
            && t.queue == s.queue[1..]
            && r in t.agents && t.agents[r] == Holding(if answers then w else other)
            && (answers || (w in s.log && w in t.dead && w in t.log
                            && t.log[w] == s.log[w] + [Use(ByRun(r), M.OpPing), Use(ByRun(r), M.OpShutdown)]))
  {
    QueuedKnown(s);
    hide Inv, Next;
    var s1 := Pings(s, r);
    var first, rest := [Arrive(r), Take(r), Ping(r)], [];
    var t;
    if answers {
      t := PingSucceeds(s1, r);
      rest := [PingOk(r)];
    } else {
      t := Replaces(s1, r, other);
      rest := [PingBad(r)] + ([StopBegin(r), StopEnd(r)] + [SpawnOk(r, other)]);
    }
    Joins(s, first, s1, rest, t);
    es := first + rest;
  }

  // Or, if its context ends while it waits, leaves with nothing changed.
  lemma AcquireCancelled(s: State, r: RunId)
    requires !s.flag && r !in s.agents
    ensures Run(s, [Arrive(r), Cancel(r)]) == Some(Step(s, r, Left))
  {
    var s1 := StepArrive(s, r).value;
    assert s.agents[r := Checked][r := Left] == s.agents[r := Left];
    Steps2(s, Arrive(r), s1, Cancel(r), Step(s, r, Left));
  }

  lemma QueuedKnown(s: State)
    requires Inv(s) && s.queue != []
    ensures s.queue[0] in s.log
  {
    hide LogsFormed, LogsOwned, StopsMatch, Issues;
  }

  lemma Pings(s: State, r: RunId) returns (t: State)
    requires !s.flag && s.queue != [] && r !in s.agents && s.queue[0] in s.log
    ensures Run(s, [Arrive(r), Take(r), Ping(r)]) == Some(t)
    ensures var w := s.queue[0];
            && t.queue == s.queue[1..] && t.dead == s.dead
            && t.log == s.log[w := s.log[w] + [Use(ByRun(r), M.OpPing)]]
            && r in t.agents && t.agents[r] == Pinging(w)
  {
    var s1 := StepArrive(s, r).value;
    var s2 := StepTake(s1, r).value;
    t := StepPing(s2, r).value;
    Steps3(s, Arrive(r), s1, Take(r), s2, Ping(r), t);
  }

  lemma PingSucceeds(s: State, r: RunId) returns (t: State)
    requires r in s.agents && s.agents[r].Pinging?
    ensures Run(s, [PingOk(r)]) == Some(t)
    ensures r in t.agents && t.agents[r] == Holding(s.agents[r].w) && t.queue == s.queue
  {
    t := StepPingOk(s, r).value;
    OneStep(s, PingOk(r));
  }

  lemma Replaces(s: State, r: RunId, other: Wid) returns (t: State)
    requires r in s.agents && s.agents[r].Pinging? && s.agents[r].w in s.log && other !in s.log
    ensures Run(s, [PingBad(r)] + ([StopBegin(r), StopEnd(r)] + [SpawnOk(r, other)])) == Some(t)
    ensures var w := s.agents[r].w;
            && r in t.agents && t.agents[r] == Holding(other) && t.queue == s.queue && w in t.dead
            && w in t.log && t.log[w] == s.log[w] + [Use(ByRun(r), M.OpShutdown)]
  {
    var s1 := StepPingBad(s, r).value;
    Cons(s, PingBad(r), s1, [StopBegin(r), StopEnd(r)] + [SpawnOk(r, other)]);
    var s2 := Stops(s1, r);
    t := StepSpawnOk(s2, r, other).value;
    OneStep(s2, SpawnOk(r, other));
    Joins(s1, [StopBegin(r), StopEnd(r)], s2, [SpawnOk(r, other)], t);
  }
}
