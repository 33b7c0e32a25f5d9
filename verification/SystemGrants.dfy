/** Which workers Acquire hands out, when one counts as gone, and that the system
    does not hinder the pool. */
module SystemGrants {
  import opened Wrappers
  import opened Messages
  import opened System
  import opened SystemInv
  import opened SystemMoves
  import opened SystemSteps
  import opened SystemRuns
  import opened SystemParts
  import S = Socket
  import P = Pool
  import PL = PoolLogs

  predicate HasWorker(p: P.State, r: RunId) {
    r in p.agents && p.agents[r].Holding?
  }

  // The worker is new, or the last thing it did was answer a ping.
  ghost predicate Responsive(c: S.Conn) {
    || c == S.FRESH
    || (c.begun != [] && |c.returned| == |c.served| == |c.begun| && c.begun[|c.begun| - 1] == Ping
        && c.returned[|c.begun| - 1] == Some(Pong) && c.served[|c.begun| - 1] == (Ping, Pong))
  }

  lemma GrantingSteps(p: P.State, pe: P.Event, r: RunId)
    requires P.Next(p, pe).Some? && !HasWorker(p, r) && HasWorker(P.Next(p, pe).value, r)
    ensures pe == P.PingOk(r) || exists w :: pe == P.SpawnOk(r, w)
  {
    if pe.SpawnOk? {
      assert pe == P.SpawnOk(pe.r, pe.w);
    }
  }

  lemma PongIsLast(env: Env, s: State, w: Wid)
    requires Core(env, s) && w in s.conns && s.conns[w].host.Free? && s.conns[w].returned != []
    ensures var c := s.conns[w];
            Responsive(c) <==> c.returned[|c.returned| - 1] == Some(Pong)
  {
    ServedFacts(env, s, w);
    hide Core;
    LastPong(s.conns[w]);
  }

  lemma LastPong(c: S.Conn)
    requires S.Histories(c) && c.host.Free? && c.returned != []
    ensures Responsive(c) <==> c.returned[|c.returned| - 1] == Some(Pong)
  {
    assert |c.begun| == |c.returned|;
    var n := |c.returned| - 1;
    if c.returned[n] == Some(Pong) {
      assert n < |c.served| && c.served[n].1 == Pong && c.served[n].0 == c.begun[n];
      assert Answers(c.begun[n], Pong);
    }
  }

  // Acquire hands out only workers that are new or have just answered its ping;
  // one whose ping came back empty-handed is stopped and replaced.
  lemma OnlyResponsive(env: Env, s: State, e: Event, r: RunId)
    requires env.Sound() && Reachable(env, s) && Next(env, s, e).Some?
    ensures var t := Next(env, s, e).value;
            && (!HasWorker(s.pool, r) && HasWorker(t.pool, r) ==>
                  t.pool.agents[r].w in t.conns && Responsive(t.conns[t.pool.agents[r].w]))
            && (e == PingDone(r) ==>
                  && r in s.pool.agents && s.pool.agents[r].Pinging? && s.pool.agents[r].w in s.conns
                  && var w := s.pool.agents[r].w;
                  r in t.pool.agents
                  && t.pool.agents[r] == if Responsive(s.conns[w]) then P.Holding(w) else P.MustStop(w, true))
  {
    ReachableInv(env, s);
    PoolPart(env, s, e);
    hide Next, Reachable, Inv, P.Next, Responsive, PL.Inv;
    var t := Next(env, s, e).value;
    if e == PingDone(r) {
      PingDecides(env, s, r);
    } else if !HasWorker(s.pool, r) && HasWorker(t.pool, r) {
      var pe := PoolEvent(env, s, e).value;
      GrantingSteps(s.pool, pe, r);
      SpawnIsFresh(env, s, e, r, pe);
    }
  }

  lemma PingDecides(env: Env, s: State, r: RunId)
    requires Inv(env, s) && Next(env, s, PingDone(r)).Some?
    ensures var t := Next(env, s, PingDone(r)).value;
            && r in s.pool.agents && s.pool.agents[r].Pinging? && s.pool.agents[r].w in s.conns
            && var w := s.pool.agents[r].w;
            r in t.pool.agents && t.conns == s.conns
            && t.pool.agents[r] == if Responsive(s.conns[w]) then P.Holding(w) else P.MustStop(w, true)
  {
    hide Core, PL.Inv, Responsive;
    PongIsLast(env, s, HandOf(s, r).value);
  }

  lemma SpawnIsFresh(env: Env, s: State, e: Event, r: RunId, pe: P.Event)
    requires Next(env, s, e).Some? && PoolEvent(env, s, e) == Some(pe) && e != PingDone(r)
    requires pe == P.PingOk(r) || exists w :: pe == P.SpawnOk(r, w)
    ensures var t := Next(env, s, e).value;
            r in t.pool.agents && t.pool.agents[r].Holding?
            && t.pool.agents[r].w in t.conns && t.conns[t.pool.agents[r].w] == S.FRESH
  {
  }

  // ---------------------------------------------------------------- releasing and stopping

  // A worker counts as gone only once its Shutdown has returned: its connection is
  // closed and its process has exited.
  ghost predicate GoneAreClosed(s: State) {
    forall w <- s.pool.dead :: w in s.conns && s.conns[w].host.Closed?
  }

  lemma GoneNext(env: Env, s: State, e: Event)
    requires env.Sound() && Inv(env, s) && GoneAreClosed(s) && Next(env, s, e).Some?
    ensures GoneAreClosed(Next(env, s, e).value)
  {
    hide Next, Inv, GoneAreClosed, P.Next;
    PoolPart(env, s, e);
    var t := Next(env, s, e).value;
    forall w | w in t.pool.dead ensures w in t.conns && t.conns[w].host.Closed? {
      if w in s.pool.dead {
        GoneIsClosed(s, w);
        ClosedStays(env, s, e, w);
      } else {
        StopClosed(env, s, e, w);
      }
    }
    ClosedAll(t);
  }

  lemma ClosedAll(s: State)
    requires forall w <- s.pool.dead :: w in s.conns && s.conns[w].host.Closed?
    ensures GoneAreClosed(s)
  {
  }

  lemma GoneIsClosed(s: State, w: Wid)
    requires GoneAreClosed(s) && w in s.pool.dead
    ensures w in s.conns && s.conns[w].host.Closed?
  {
  }

  lemma ClosedStays(env: Env, s: State, e: Event, w: Wid)
    requires Inv(env, s) && w in s.pool.dead && w in s.conns && s.conns[w].host.Closed? && Next(env, s, e).Some?
    ensures w in Next(env, s, e).value.conns && Next(env, s, e).value.conns[w].host.Closed?
  {
    hide Next, Inv;
    if e.Spawned? {
      GoneIsKnown(env, s, w);
      SpawnedElsewhere(env, s, e, w);
    } else {
      ConnMoves(env, s, e, w);
      ClosedForGood(env.codec, s.conns[w]);
    }
  }

  lemma SpawnedElsewhere(env: Env, s: State, e: Event, w: Wid)
    requires e.Spawned? && Next(env, s, e).Some? && w in s.conns && w in s.pool.log
    ensures w in Next(env, s, e).value.conns && Next(env, s, e).value.conns[w] == s.conns[w]
  {
  }

  lemma GoneIsKnown(env: Env, s: State, w: Wid)
    requires Inv(env, s) && w in s.pool.dead
    ensures w in s.pool.log
  {
    hide Core, PL.LogsFormed, PL.LogsOwned, PL.StopsMatch, PL.Issues, P.Phases, P.Counted;
  }

  // Every connection stays, as it is or by a step of its own.
  lemma ConnMoves(env: Env, s: State, e: Event, w: Wid)
    requires Next(env, s, e).Some? && w in s.conns && !e.Spawned?
    ensures w in Next(env, s, e).value.conns
    ensures var c, d := s.conns[w], Next(env, s, e).value.conns[w];
            d == c || exists se :: S.Next(env.codec, c, se) == Some(d)
  {
    if LocksSocket(e) {
      LockKeeps(env, s, e, w);
      hide Next, S.Next;
      LockingPart(env, s, e, w);
    } else {
      OthersKeep(env, s, e, w);
    }
  }

  lemma LockKeeps(env: Env, s: State, e: Event, w: Wid)
    requires Next(env, s, e).Some? && w in s.conns && LocksSocket(e)
    ensures w in Next(env, s, e).value.conns
  {
    hide S.Locked, P.Log, LocalResponse;
  }

  lemma OthersKeep(env: Env, s: State, e: Event, w: Wid)
    requires Next(env, s, e).Some? && w in s.conns && !LocksSocket(e) && !e.Spawned?
    ensures w in Next(env, s, e).value.conns
    ensures var c, d := s.conns[w], Next(env, s, e).value.conns[w];
            d == c || exists se :: S.Next(env.codec, c, se) == Some(d)
  {
    RespondKeepsConns(env, s);
    hide S.Next, P.Next, RespondIn, LocalResponse, ReplyAllowed;
    if e.SocketStep? && e.w == w {
      assert S.Next(env.codec, s.conns[w], e.se) == Some(Next(env, s, e).value.conns[w]);
    }
  }

  lemma ClosedForGood(cd: Codec, c: S.Conn)
    requires c.host.Closed?
    ensures forall se | S.Next(cd, c, se).Some? :: S.Next(cd, c, se).value.host.Closed?
  {
  }

  lemma StopClosed(env: Env, s: State, e: Event, w: Wid)
    requires Next(env, s, e).Some? && w in Next(env, s, e).value.pool.dead && w !in s.pool.dead
    ensures w in Next(env, s, e).value.conns && Next(env, s, e).value.conns[w].host.Closed?
  {
    PoolPart(env, s, e);
    hide Next, P.Next;
    var pe := PoolEvent(env, s, e).value;
    StoppingSteps(s.pool, pe, w);
    StopReturned(env, s, e, pe, w);
  }

  lemma StoppingSteps(p: P.State, pe: P.Event, w: Wid)
    requires P.Next(p, pe).Some? && w in P.Next(p, pe).value.dead && w !in p.dead
    ensures || (pe.StopEnd? && pe.r in p.agents && P.WorkerOf(p.agents[pe.r]) == Some(w))
            || (pe.CloserStopped? && P.CloserWorker(p.closer) == Some(w))
  {
  }

  lemma StopReturned(env: Env, s: State, e: Event, pe: P.Event, w: Wid)
    requires Next(env, s, e).Some? && PoolEvent(env, s, e) == Some(pe)
    requires || (pe.StopEnd? && pe.r in s.pool.agents && P.WorkerOf(s.pool.agents[pe.r]) == Some(w))
             || (pe.CloserStopped? && P.CloserWorker(s.pool.closer) == Some(w))
    ensures w in Next(env, s, e).value.conns && Next(env, s, e).value.conns[w].host.Closed?
  {
    hide P.WorkerOf, P.CloserWorker, P.Next;
  }

  lemma {:induction false} GoneRun(env: Env, s: State, es: seq<Event>)
    requires env.Sound() && Inv(env, s) && GoneAreClosed(s) && Run(env, s, es).Some?
    ensures GoneAreClosed(Run(env, s, es).value)
    decreases |es|
  {
    hide Next, Inv, GoneAreClosed;
    if es != [] {
      GoneNext(env, s, es[0]);
      InvNext(env, s, es[0]);
      GoneRun(env, Next(env, s, es[0]).value, es[1..]);
    }
  }

  lemma StoppedAreClosed(env: Env, s: State)
    requires env.Sound() && Reachable(env, s)
    ensures forall w <- s.pool.dead :: w in s.conns && s.conns[w].host.Closed? && s.conns[w].py.Exited?
  {
    var s0, es :| Initial(s0) && Run(env, s0, es) == Some(s);
    InvInitial(env, s0);
    GoneRun(env, s0, es);
    ReachableInv(env, s);
    hide Inv, Reachable;
    forall w | w in s.pool.dead ensures w in s.conns && s.conns[w].host.Closed? && s.conns[w].py.Exited? {
      GoneIsClosed(s, w);
      ClosedHasExited(env, s, w);
    }
  }

  lemma ClosedHasExited(env: Env, s: State, w: Wid)
    requires Inv(env, s) && w in s.conns && s.conns[w].host.Closed?
    ensures s.conns[w].py.Exited?
  {
    ServedFacts(env, s, w);
    hide Core, PL.Inv;
  }

  // ---------------------------------------------------------------- the pool's own steps

  // What the pool does without a socket it can do inside the system.
  lemma PoolUnhindered(env: Env, s: State, pe: P.Event)
    requires P.Next(s.pool, pe).Some?
    requires pe.Arrive? || pe.Cancel? || pe.Take? || pe.CheckRelease? || pe.Put? || pe.SpawnFails? || pe.SetFlag?
             || pe.CloseChan? || pe.Drain? || pe.CloseReturns?
    ensures Next(env, s, PoolStep(pe)) == Some(s.(pool := P.Next(s.pool, pe).value))
  {
    hide P.Next;
  }
}
