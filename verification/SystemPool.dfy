/** The steps of the system that involve the pool, and the system's invariant as
    a whole. */
module SystemPool {
  import opened Wrappers
  import opened Messages
  import opened System
  import opened SystemInv
  import opened SystemSteps
  import B = Bridge
  import S = Socket
  import P = Pool
  import PL = PoolLogs

  // ---------------------------------------------------------------- locking

  // No Run waits for a request to worker w.
  ghost predicate NobodyAsking(s: State, w: Wid)
    requires Keyed(s)
  {
    forall r | r in s.runs && s.pool.lease[r] == w :: !s.runs[r].disp.Asked?
  }

  // The party that may lock a worker is the only one involved with it.
  lemma HolderIsAlone(env: Env, s: State, w: Wid, q: RunId)
    requires Inv(env, s) && P.HeldBy(s.pool, q, w)
    requires s.pool.agents[q].Holding? ==> q in s.runs && !s.runs[q].disp.Asked?
    ensures NobodyAsking(s, w)
  {
    hide WorkerOK, RunOK, PL.LogsFormed, PL.LogsOwned, PL.StopsMatch, P.Counted;
    forall r | r in s.runs && s.pool.lease[r] == w ensures !s.runs[r].disp.Asked? {
      if s.runs[r].disp.Asked? {
        AskerHolds(s, w, r);
        assert false;
      }
    }
  }

  lemma AskerHolds(s: State, w: Wid, r: RunId)
    requires Keyed(s) && LeaseOK(s) && r in s.runs && s.pool.lease[r] == w && s.runs[r].disp.Asked?
    ensures P.HeldBy(s.pool, r, w)
  {
  }

  lemma CloserIsAlone(env: Env, s: State, w: Wid)
    requires Inv(env, s) && P.CloserWorker(s.pool.closer) == Some(w)
    ensures NobodyAsking(s, w)
  {
    hide WorkerOK, RunOK, PL.LogsFormed, PL.LogsOwned, PL.StopsMatch, P.Counted;
    forall r | r in s.runs && s.pool.lease[r] == w ensures !s.runs[r].disp.Asked? {
      if s.runs[r].disp.Asked? {
        AskerHolds(s, w, r);
        assert false;
      }
    }
  }

  // From s to t: the pool logs u for w, w's mutex is taken, and the Run that asks,
  // if one does, waits for the request.
  ghost predicate Locks(env: Env, s: State, t: State, w: Wid, u: P.Use) {
    && PL.Sends(s.pool, t.pool, w, u)
    && w in s.conns && S.Locked(env.codec, s.conns[w], u.op).Some?
    && t.conns == s.conns[w := S.Locked(env.codec, s.conns[w], u.op).value]
    && t.cache == s.cache
    && (u.who.ByRun? ==>
          && (u.op.OpPing? ==> t.pool.agents[u.who.r].Pinging?)
          && (!Numbered(u.op) ==> !s.pool.agents[u.who.r].Holding?))
    && (if Numbered(u.op)
        then u.who.ByRun? && u.who.r in s.runs && s.runs[u.who.r].disp.Cleared?
             && t.runs == s.runs[u.who.r := s.runs[u.who.r].(disp := Asked(u.op, |s.conns[w].begun|))]
        else t.runs == s.runs)
  }

  lemma LockKeepsCore(env: Env, s: State, t: State, w: Wid, u: P.Use)
    requires env.Sound() && Inv(env, s) && Locks(env, s, t, w, u) && NobodyAsking(s, w)
    requires u.op.OpCall? ==> u.who.ByRun? && env.allow(u.who.r, u.op.func)
    requires Numbered(u.op) ==> RunOK(env, u.who.r, t.runs[u.who.r], Leased(t.conns[w], t.pool.log[w]))
    ensures Core(env, t)
  {
    hide WorkerOK, RunOK, TurnOK, P.Owned, PL.LogsFormed, PL.LogsOwned, PL.StopsMatch, PL.Issues, S.Locked;
    LockKeyed(env, s, t, w, u);
    LockWorkers(env, s, t, w, u);
    LockRuns(env, s, t, w, u);
    LockMutexes(env, s, t, w, u);
  }

  lemma LockKeyed(env: Env, s: State, t: State, w: Wid, u: P.Use)
    requires Inv(env, s) && Locks(env, s, t, w, u)
    ensures Keyed(t) && LeaseOK(t) && CacheOK(env, t)
  {
    hide WorkerOK, RunOK, PL.Inv, MutexOK;
  }

  lemma LockWorkers(env: Env, s: State, t: State, w: Wid, u: P.Use)
    requires env.Sound() && Keyed(s) && WorkersOK(env, s) && Locks(env, s, t, w, u) && Keyed(t)
    requires u.op.OpCall? ==> u.who.ByRun? && env.allow(u.who.r, u.op.func)
    ensures WorkersOK(env, t)
  {
    hide WorkerOK;
    LockKeepsWorker(env, s.pool.log[w], s.conns[w], u);
  }

  lemma LockRuns(env: Env, s: State, t: State, w: Wid, u: P.Use)
    requires env.Sound() && Keyed(s) && WorkersOK(env, s) && RunsOK(env, s)
    requires Locks(env, s, t, w, u) && Keyed(t) && NobodyAsking(s, w)
    requires Numbered(u.op) ==>
               s.pool.lease[u.who.r] == w
               && RunOK(env, u.who.r, t.runs[u.who.r], Leased(t.conns[w], t.pool.log[w]))
    ensures RunsOK(env, t)
  {
    hide RunOK, WorkerOK;
    assert Grows(s.conns[w], t.conns[w]);
    forall r <- t.runs ensures RunOK(env, r, t.runs[r], LeasedTo(t, r)) {
      if t.pool.lease[r] == w && t.runs[r] == s.runs[r] {
        RunSurvives(env, r, s.runs[r], LeasedTo(s, r), LeasedTo(t, r));
      }
    }
  }

  lemma LockMutexes(env: Env, s: State, t: State, w: Wid, u: P.Use)
    requires P.Owned(s.pool) && Keyed(s) && MutexOK(s) && LeaseOK(s) && Locks(env, s, t, w, u)
    ensures MutexOK(t)
  {
    forall q <- t.pool.agents ensures TurnOK(t, q, t.pool.agents[q]) {
      hide P.Owned;
      assert TurnOK(s, q, s.pool.agents[q]);
      if u.who == P.ByRun(q) {
        OwnTurn(env, s, t, w, u, q);
      } else {
        OtherHands(s.pool, t.pool, w, u, q);
        OtherTurn(env, s, t, w, u, q);
      }
    }
    OtherPlaces(s.pool, t.pool, w, u);
    hide P.Owned, TurnOK, S.Locked;
  }

  lemma OwnTurn(env: Env, s: State, t: State, w: Wid, u: P.Use, q: RunId)
    requires Locks(env, s, t, w, u) && u.who == P.ByRun(q) && q in s.pool.agents && TurnOK(s, q, s.pool.agents[q])
    ensures q in t.pool.agents && TurnOK(t, q, t.pool.agents[q])
  {
  }

  // Nobody else has the worker that is being locked.
  lemma OtherHands(p: P.State, p': P.State, w: Wid, u: P.Use, q: RunId)
    requires P.Owned(p) && PL.Sends(p, p', w, u) && q in p.agents && u.who != P.ByRun(q)
    ensures P.WorkerOf(p.agents[q]) != Some(w) && q in p'.agents && p'.agents[q] == p.agents[q]
  {
    hide P.Counted, P.Phases;
    assert u.who.ByRun? ==> P.HeldBy(p, u.who.r, w);
    assert P.WorkerOf(p.agents[q]) == Some(w) ==> P.HeldBy(p, q, w);
  }

  lemma OtherPlaces(p: P.State, p': P.State, w: Wid, u: P.Use)
    requires P.Owned(p) && PL.Sends(p, p', w, u)
    ensures w !in p'.queue && p'.queue == p.queue
    ensures p'.closer.CloserHas? ==> p'.closer == p.closer && p'.closer.w != w
  {
    hide P.Counted, P.Phases;
    assert u.who.ByRun? ==> P.HeldBy(p, u.who.r, w);
  }

  lemma OtherTurn(env: Env, s: State, t: State, w: Wid, u: P.Use, q: RunId)
    requires Locks(env, s, t, w, u) && u.who != P.ByRun(q) && q in s.pool.agents && TurnOK(s, q, s.pool.agents[q])
    requires P.WorkerOf(s.pool.agents[q]) != Some(w) && q in t.pool.agents && t.pool.agents[q] == s.pool.agents[q]
    ensures TurnOK(t, q, t.pool.agents[q])
  {
    hide PL.Sends, S.Locked;
  }

  // ---------------------------------------------------------------- steps that lock

  lemma StartPingLocks(env: Env, s: State, r: RunId)
    requires StepLock(env, s, P.StepPing(s.pool, r), HandOf(s, r), OpPing).Some?
    ensures Locks(env, s, StepLock(env, s, P.StepPing(s.pool, r), HandOf(s, r), OpPing).value, s.pool.agents[r].w,
                  P.Use(P.ByRun(r), OpPing))
  {
    PL.ShapePing(s.pool, r);
  }

  lemma StartPingKeepsInv(env: Env, s: State, r: RunId)
    requires env.Sound() && Inv(env, s) && StepLock(env, s, P.StepPing(s.pool, r), HandOf(s, r), OpPing).Some?
    ensures Inv(env, StepLock(env, s, P.StepPing(s.pool, r), HandOf(s, r), OpPing).value)
  {
    hide Core, PL.Inv, Locks;
    StartPingLocks(env, s, r);
    LocksThenInv(env, s, StepLock(env, s, P.StepPing(s.pool, r), HandOf(s, r), OpPing).value, P.Ping(r),
                 s.pool.agents[r].w, P.Use(P.ByRun(r), OpPing));
  }

  lemma StartStopLocks(env: Env, s: State, r: RunId)
    requires StepLock(env, s, P.StepStopBegin(s.pool, r), HandOf(s, r), OpShutdown).Some?
    ensures Locks(env, s, StepLock(env, s, P.StepStopBegin(s.pool, r), HandOf(s, r), OpShutdown).value,
                  s.pool.agents[r].w, P.Use(P.ByRun(r), OpShutdown))
  {
    PL.ShapeStop(s.pool, r);
  }

  lemma StartStopKeepsInv(env: Env, s: State, r: RunId)
    requires env.Sound() && Inv(env, s) && StepLock(env, s, P.StepStopBegin(s.pool, r), HandOf(s, r), OpShutdown).Some?
    ensures Inv(env, StepLock(env, s, P.StepStopBegin(s.pool, r), HandOf(s, r), OpShutdown).value)
  {
    hide Core, PL.Inv, Locks;
    StartStopLocks(env, s, r);
    LocksThenInv(env, s, StepLock(env, s, P.StepStopBegin(s.pool, r), HandOf(s, r), OpShutdown).value, P.StopBegin(r),
                 s.pool.agents[r].w, P.Use(P.ByRun(r), OpShutdown));
  }

  lemma CloserStartStopLocks(env: Env, s: State)
    requires StepLock(env, s, P.StepCloserStop(s.pool), P.CloserWorker(s.pool.closer), OpShutdown).Some?
    ensures Locks(env, s, StepLock(env, s, P.StepCloserStop(s.pool), P.CloserWorker(s.pool.closer), OpShutdown).value,
                  s.pool.closer.w, P.Use(P.ByCloser, OpShutdown))
  {
    PL.ShapeCloserStop(s.pool);
  }

  lemma CloserStartStopKeepsInv(env: Env, s: State)
    requires env.Sound() && Inv(env, s)
    requires StepLock(env, s, P.StepCloserStop(s.pool), P.CloserWorker(s.pool.closer), OpShutdown).Some?
    ensures Inv(env, StepLock(env, s, P.StepCloserStop(s.pool), P.CloserWorker(s.pool.closer), OpShutdown).value)
  {
    hide Core, PL.Inv, Locks;
    CloserStartStopLocks(env, s);
    LocksThenInv(env, s, StepLock(env, s, P.StepCloserStop(s.pool), P.CloserWorker(s.pool.closer), OpShutdown).value,
                 P.CloserStop, s.pool.closer.w, P.Use(P.ByCloser, OpShutdown));
  }

  lemma LocksThenInv(env: Env, s: State, t: State, pe: P.Event, w: Wid, u: P.Use)
    requires env.Sound() && Inv(env, s) && Locks(env, s, t, w, u)
    requires P.Next(s.pool, pe) == Some(t.pool)
    requires u.op.OpCall? ==> u.who.ByRun? && env.allow(u.who.r, u.op.func)
    requires Numbered(u.op) ==> RunOK(env, u.who.r, t.runs[u.who.r], Leased(t.conns[w], t.pool.log[w]))
    ensures Inv(env, t)
  {
    hide Core, PL.Inv, P.Next;
    PL.InvNext(s.pool, pe);
    AloneWhenLocking(env, s, t, w, u);
    LockKeepsCore(env, s, t, w, u);
  }

  lemma AloneWhenLocking(env: Env, s: State, t: State, w: Wid, u: P.Use)
    requires Inv(env, s) && Locks(env, s, t, w, u)
    ensures NobodyAsking(s, w)
  {
    hide Core, PL.Inv;
    match u.who
    case ByRun(r) => HolderIsAlone(env, s, w, r);
    case ByCloser => CloserIsAlone(env, s, w);
  }

  function AskOp(env: Env, s: State, r: RunId): Op
    requires StepAsk(env, s, r).Some?
  {
    OpFor(env.parse(s.runs[r].bridge.goro.body)).value
  }

  lemma AskLocks(env: Env, s: State, r: RunId)
    requires StepAsk(env, s, r).Some?
    ensures Locks(env, s, StepAsk(env, s, r).value, s.pool.agents[r].w, P.Use(P.ByRun(r), AskOp(env, s, r)))
    ensures P.Next(s.pool, P.Ask(r, AskOp(env, s, r))) == Some(StepAsk(env, s, r).value.pool)
    ensures var t := StepAsk(env, s, r).value; var op := AskOp(env, s, r);
            && HasOwn(s, r)
            && t.runs[r] == s.runs[r].(disp := Asked(op, |Own(s, r).c.begun|))
            && S.Locked(env.codec, Own(s, r).c, op) == Some(t.conns[s.pool.agents[r].w])
            && t.pool.log[s.pool.agents[r].w] == Own(s, r).l + [P.Use(P.ByRun(r), op)]
  {
    PL.ShapeAsk(s.pool, r, AskOp(env, s, r));
  }

  lemma AskKeepsInv(env: Env, s: State, r: RunId)
    requires env.Sound() && Inv(env, s) && StepAsk(env, s, r).Some?
    ensures Inv(env, StepAsk(env, s, r).value)
  {
    hide Core, PL.Inv, Locks;
    AskLocks(env, s, r);
    AskedRun(env, s, r, AskOp(env, s, r));
    LocksThenInv(env, s, StepAsk(env, s, r).value, P.Ask(r, AskOp(env, s, r)), s.pool.agents[r].w,
                 P.Use(P.ByRun(r), AskOp(env, s, r)));
  }

  lemma AskedRun(env: Env, s: State, r: RunId, op: Op)
    requires env.Sound() && Core(env, s) && Asking(s, r) && OpFor(env.parse(s.runs[r].bridge.goro.body)) == Some(op)
    requires HasOwn(s, r) && S.Locked(env.codec, Own(s, r).c, op).Some?
    ensures op.OpCall? ==> env.allow(r, op.func)
    ensures RunOK(env, r, s.runs[r].(disp := Asked(op, |Own(s, r).c.begun|)),
                  Leased(S.Locked(env.codec, Own(s, r).c, op).value, Own(s, r).l + [P.Use(P.ByRun(r), op)]))
  {
    hide RunOK, WorkerOK;
    RunFacts(env, s, r);
    DispFacts(env, s, r);
    ServedFacts(env, s, s.pool.agents[r].w);
    LockedDisp(env, r, s.runs[r], Own(s, r), op);
  }

  lemma LockedDisp(env: Env, r: RunId, rs: RunState, k: Leased, op: Op)
    requires RunOK(env, r, rs, k) && rs.disp.Cleared? && rs.bridge.goro.Working? && |k.c.begun| == |k.l|
    requires OpFor(env.parse(rs.bridge.goro.body)) == Some(op) && S.Locked(env.codec, k.c, op).Some?
    ensures op.OpCall? ==> env.allow(r, op.func)
    ensures RunOK(env, r, rs.(disp := Asked(op, |k.c.begun|)),
                  Leased(S.Locked(env.codec, k.c, op).value, k.l + [P.Use(P.ByRun(r), op)]))
  {
    hide B.Inv, ExchangeOK;
    var k2 := Leased(S.Locked(env.codec, k.c, op).value, k.l + [P.Use(P.ByRun(r), op)]);
    assert Grows(k.c, k2.c);
    RunSurvives(env, r, rs, k, k2);
  }
}
