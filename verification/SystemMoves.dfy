/** The steps of the system that move workers between hands, and the whole
    invariant over whole runs. */
module SystemMoves {
  import opened Wrappers
  import opened Messages
  import opened System
  import opened SystemInv
  import opened SystemSteps
  import opened SystemPool
  import S = Socket
  import P = Pool
  import PL = PoolLogs

  // A holder whose worker must be idle.
  predicate IdleHolder(a: P.Agent) {
    a.Taken? || a.Releasing? || a.ReleaseChecked? || a.MustStop? || a.Panicked?
  }

  // Workers change hands, all of them idle; no lease and no log changes.
  ghost predicate IdleMoves(p: P.State, q: P.State) {
    && q.log == p.log && q.lease == p.lease
    && p.agents.Keys <= q.agents.Keys
    && (forall r <- q.agents ::
          || (r in p.agents && q.agents[r] == p.agents[r])
          || (P.WorkerOf(q.agents[r]).None? && (r in p.agents ==> !p.agents[r].Holding?))
          || (r in p.agents && IdleHolder(q.agents[r]) && !p.agents[r].Holding?
              && (P.WorkerOf(q.agents[r]).value in p.queue
                  || (IdleHolder(p.agents[r]) && P.WorkerOf(p.agents[r]) == P.WorkerOf(q.agents[r])))))
    && (forall w <- q.queue ::
          w in p.queue || exists r :: r in p.agents && IdleHolder(p.agents[r]) && P.WorkerOf(p.agents[r]) == Some(w))
    && (q.closer.CloserHas? ==> q.closer == p.closer || q.closer.w in p.queue)
  }

  lemma IdleMovesKeepCore(env: Env, s: State, q: P.State)
    requires Core(env, s) && IdleMoves(s.pool, q)
    ensures Core(env, s.(pool := q))
  {
    hide RunOK, WorkerOK;
    IdleMovesKeepMutex(s, q);
    hide MutexOK;
  }

  lemma IdleMovesKeepMutex(s: State, q: P.State)
    requires MutexOK(s) && IdleMoves(s.pool, q)
    ensures MutexOK(s.(pool := q))
  {
    var t := s.(pool := q);
    forall r <- q.agents ensures TurnOK(t, r, q.agents[r]) {
      if r in s.pool.agents {
        assert TurnOK(s, r, s.pool.agents[r]);
      }
    }
    forall w <- q.queue ensures w in t.conns && t.conns[w].host.Free? {
      if w !in s.pool.queue {
        var r :| r in s.pool.agents && IdleHolder(s.pool.agents[r]) && P.WorkerOf(s.pool.agents[r]) == Some(w);
        assert TurnOK(s, r, s.pool.agents[r]);
      }
    }
  }

  lemma PoolMovesIdle(p: P.State, pe: P.Event)
    requires TouchesNoSocket(pe) && P.Next(p, pe).Some?
    ensures IdleMoves(p, P.Next(p, pe).value)
  {
    match pe
    case Take(r) => TakeMovesIdle(p, r);
    case Put(r) => PutMovesIdle(p, r);
    case SetFlag => CloserMovesIdle(p, pe);
    case CloseChan => CloserMovesIdle(p, pe);
    case Drain => CloserMovesIdle(p, pe);
    case CloseReturns => CloserMovesIdle(p, pe);
    case _ => AgentMovesIdle(p, pe);
  }

  lemma AgentMovesIdle(p: P.State, pe: P.Event)
    requires pe.Arrive? || pe.Cancel? || pe.CheckRelease? || pe.SpawnFails?
    requires P.Next(p, pe).Some?
    ensures IdleMoves(p, P.Next(p, pe).value)
  {
  }

  lemma CloserMovesIdle(p: P.State, pe: P.Event)
    requires pe.SetFlag? || pe.CloseChan? || pe.Drain? || pe.CloseReturns?
    requires P.Next(p, pe).Some?
    ensures IdleMoves(p, P.Next(p, pe).value)
  {
  }

  lemma TakeMovesIdle(p: P.State, r: RunId)
    requires P.StepTake(p, r).Some?
    ensures IdleMoves(p, P.StepTake(p, r).value)
  {
    if p.queue == [] {
      NilMovesIdle(p, r);
    } else {
      FirstMovesIdle(p, r);
    }
  }

  lemma NilMovesIdle(p: P.State, r: RunId)
    requires r in p.agents && p.agents[r].Checked?
    ensures IdleMoves(p, P.Step(p, r, P.Panicked(None)))
  {
  }

  lemma FirstMovesIdle(p: P.State, r: RunId)
    requires r in p.agents && p.agents[r].Checked? && p.queue != []
    ensures IdleMoves(p, P.Step(p, r, P.Taken(p.queue[0])).(queue := p.queue[1..]))
  {
    assert forall w <- p.queue[1..] :: w in p.queue;
  }

  lemma PutMovesIdle(p: P.State, r: RunId)
    requires P.StepPut(p, r).Some?
    ensures IdleMoves(p, P.StepPut(p, r).value)
  {
    var w := p.agents[r].w;
    if p.chanClosed {
      HeldMovesIdle(p, r, P.Panicked(Some(w)));
    } else if |p.queue| < p.size {
      BackMovesIdle(p, r);
    } else {
      HeldMovesIdle(p, r, P.MustStop(w, false));
    }
  }

  lemma HeldMovesIdle(p: P.State, r: RunId, a: P.Agent)
    requires r in p.agents && IdleHolder(p.agents[r]) && IdleHolder(a) && P.WorkerOf(p.agents[r]) == P.WorkerOf(a)
    requires P.WorkerOf(a).Some?
    ensures IdleMoves(p, P.Step(p, r, a))
  {
  }

  lemma BackMovesIdle(p: P.State, r: RunId)
    requires r in p.agents && p.agents[r].ReleaseChecked?
    ensures IdleMoves(p, P.Step(p, r, P.Left).(queue := p.queue + [p.agents[r].w]))
  {
    var q := p.queue + [p.agents[r].w];
    assert IdleHolder(p.agents[r]);
    assert forall w <- q :: w in p.queue || P.WorkerOf(p.agents[r]) == Some(w);
  }

  lemma PoolKeepsInv(env: Env, s: State, pe: P.Event)
    requires Inv(env, s) && StepPool(s, pe).Some?
    ensures Inv(env, StepPool(s, pe).value)
  {
    hide Core, PL.Inv, P.Next;
    PL.InvNext(s.pool, pe);
    PoolMovesIdle(s.pool, pe);
    IdleMovesKeepCore(env, s, P.Next(s.pool, pe).value);
  }

  // ---------------------------------------------------------------- ping returned

  // Run r starts with worker w, one that was there or a new one.
  ghost predicate Granted(s: State, t: State, r: RunId, w: Wid) {
    && r in s.pool.agents && r !in s.runs
    && t.pool.agents == s.pool.agents[r := P.Holding(w)] && t.pool.lease == s.pool.lease[r := w]
    && t.pool.queue == s.pool.queue && t.pool.closer == s.pool.closer
    && t.runs == s.runs[r := RUN_INIT] && t.cache == s.cache
    && w in t.conns && t.conns[w].host.Free?
    && (|| (t.conns == s.conns && t.pool.log == s.pool.log)
        || (w !in s.conns && t.conns == s.conns[w := S.FRESH] && t.pool.log == s.pool.log[w := []]))
  }

  lemma GrantKeepsCore(env: Env, s: State, t: State, r: RunId, w: Wid)
    requires Core(env, s) && Granted(s, t, r, w)
    ensures Core(env, t)
  {
    hide MutexOK, RunsOK, WorkersOK;
    GrantKeepsRuns(env, s, t, r, w);
    GrantKeepsMutex(s, t, r, w);
  }

  lemma GrantKeepsRuns(env: Env, s: State, t: State, r: RunId, w: Wid)
    requires Keyed(s) && WorkersOK(env, s) && RunsOK(env, s) && Granted(s, t, r, w)
    ensures Keyed(t) && WorkersOK(env, t) && RunsOK(env, t)
  {
    hide RunOK, WorkerOK;
    FreshOK(env, r, Leased(t.conns[w], t.pool.log[w]));
    assert Keyed(t);
    assert WorkersOK(env, t) by {
      hide RunsOK, LeasedTo;
    }
    hide WorkersOK;
    forall q | q in t.runs ensures t.pool.lease[q] in t.conns && RunOK(env, q, t.runs[q], LeasedTo(t, q)) {
      if q != r {
        assert RunOK(env, q, s.runs[q], LeasedTo(s, q)) && LeasedTo(t, q) == LeasedTo(s, q);
      }
    }
  }

  lemma GrantKeepsMutex(s: State, t: State, r: RunId, w: Wid)
    requires MutexOK(s) && Granted(s, t, r, w)
    ensures MutexOK(t)
  {
    forall q <- t.pool.agents ensures TurnOK(t, q, t.pool.agents[q]) {
      assert q != r ==> TurnOK(s, q, s.pool.agents[q]);
    }
  }

  lemma FreshOK(env: Env, r: RunId, k: Leased)
    ensures RunOK(env, r, RUN_INIT, k) && WorkerOK(env, [], S.FRESH)
  {
  }

  // A Run that has not been granted a worker has no state yet.
  lemma UngrantedHasNoRun(env: Env, s: State, r: RunId)
    requires Inv(env, s) && r in s.pool.agents && PL.BeforeGrant(s.pool.agents[r])
    ensures r !in s.runs
  {
    hide RunsOK, WorkersOK, MutexOK, P.Owned, PL.LogsFormed, PL.LogsOwned, PL.StopsMatch;
  }

  lemma PingDoneKeepsInv(env: Env, s: State, r: RunId)
    requires Inv(env, s) && StepPingDone(s, r).Some?
    ensures Inv(env, StepPingDone(s, r).value)
  {
    hide Inv, P.StepPingOk, P.StepPingBad;
    var w := HandOf(s, r).value;
    var t := StepPingDone(s, r).value;
    if s.conns[w].returned[|s.conns[w].returned| - 1] == Some(Pong) {
      PingOkKeepsInv(env, s, t, r, w);
    } else {
      PingBadKeepsInv(env, s, t, r, w);
    }
  }

  lemma PingOkKeepsInv(env: Env, s: State, t: State, r: RunId, w: Wid)
    requires Inv(env, s) && HandOf(s, r) == Some(w) && w in s.conns && s.conns[w].host.Free?
    requires P.StepPingOk(s.pool, r) == Some(t.pool) && t == s.(pool := t.pool, runs := s.runs[r := RUN_INIT])
    ensures Inv(env, t)
  {
    hide Core, PL.Inv;
    PL.InvNext(s.pool, P.PingOk(r));
    UngrantedHasNoRun(env, s, r);
    GrantKeepsCore(env, s, t, r, w);
  }

  lemma PingBadKeepsInv(env: Env, s: State, t: State, r: RunId, w: Wid)
    requires Inv(env, s) && HandOf(s, r) == Some(w) && w in s.conns && s.conns[w].host.Free?
    requires P.StepPingBad(s.pool, r) == Some(t.pool) && t == s.(pool := t.pool)
    ensures Inv(env, t)
  {
    hide Core, PL.Inv;
    PL.InvNext(s.pool, P.PingBad(r));
    UngrantedHasNoRun(env, s, r);
    AgentKeepsCore(env, s, t, r);
  }

  // Run r's agent moves on, empty-handed or with an idle worker.
  lemma AgentKeepsCore(env: Env, s: State, t: State, r: RunId)
    requires Core(env, s) && r in s.pool.agents && r in t.pool.agents
    requires t.pool.agents == s.pool.agents[r := t.pool.agents[r]] && t.pool.queue == s.pool.queue
    requires t.pool.closer == s.pool.closer && t.pool.log == s.pool.log && t.pool.lease == s.pool.lease
    requires t == s.(pool := t.pool)
    requires !t.pool.agents[r].Holding? && (r in s.runs ==> s.runs[r].disp.Idle?)
    requires P.WorkerOf(t.pool.agents[r]).None?
             || (P.WorkerOf(t.pool.agents[r]).value in s.conns &&
                 s.conns[P.WorkerOf(t.pool.agents[r]).value].host.Free?)
    ensures Core(env, t)
  {
    hide RunOK, WorkerOK;
    forall q <- t.pool.agents ensures TurnOK(t, q, t.pool.agents[q]) {
      assert TurnOK(s, q, s.pool.agents[q]);
    }
  }

  lemma SpawnedKeepsInv(env: Env, s: State, r: RunId, w: Wid)
    requires Inv(env, s) && StepSpawned(s, r, w).Some?
    ensures Inv(env, StepSpawned(s, r, w).value)
  {
    hide Core, PL.Inv, P.Owned;
    var t := StepSpawned(s, r, w).value;
    PL.InvNext(s.pool, P.SpawnOk(r, w));
    UngrantedHasNoRun(env, s, r);
    SameKeys(env, s);
    GrantKeepsCore(env, s, t, r, w);
  }

  lemma SameKeys(env: Env, s: State)
    requires Core(env, s)
    ensures s.conns.Keys == s.pool.log.Keys
  {
  }

  // ---------------------------------------------------------------- shutdown returned

  lemma StopDoneKeepsInv(env: Env, s: State, r: RunId)
    requires Inv(env, s) && StepStopDone(s, HandOf(s, r), P.StepStopEnd(s.pool, r)).Some?
    ensures Inv(env, StepStopDone(s, HandOf(s, r), P.StepStopEnd(s.pool, r)).value)
  {
    hide Core, PL.Inv;
    var t := StepStopDone(s, HandOf(s, r), P.StepStopEnd(s.pool, r)).value;
    PL.InvNext(s.pool, P.StopEnd(r));
    NotHoldingIsIdle(env, s, r);
    AgentKeepsCore(env, s, t, r);
  }

  lemma NotHoldingIsIdle(env: Env, s: State, r: RunId)
    requires Core(env, s) && r in s.pool.agents && !s.pool.agents[r].Holding?
    ensures r in s.runs ==> s.runs[r].disp.Idle?
  {
  }

  lemma CloserStopDoneKeepsInv(env: Env, s: State)
    requires Inv(env, s) && StepStopDone(s, P.CloserWorker(s.pool.closer), P.StepCloserStopped(s.pool)).Some?
    ensures Inv(env, StepStopDone(s, P.CloserWorker(s.pool.closer), P.StepCloserStopped(s.pool)).value)
  {
    hide Core, PL.Inv;
    PL.InvNext(s.pool, P.CloserStopped);
    CloserKeepsCore(env, s, P.StepCloserStopped(s.pool).value);
  }

  lemma CloserKeepsCore(env: Env, s: State, p: P.State)
    requires Core(env, s) && p.agents == s.pool.agents && p.queue == s.pool.queue
    requires p.log == s.pool.log && p.lease == s.pool.lease && !p.closer.CloserHas?
    ensures Core(env, s.(pool := p))
  {
    hide RunOK, WorkerOK;
    var t := s.(pool := p);
    forall q <- t.pool.agents ensures TurnOK(t, q, t.pool.agents[q]) {
      assert TurnOK(s, q, s.pool.agents[q]);
    }
  }

  // ---------------------------------------------------------------- Run returns

  lemma FinishKeepsInv(env: Env, s: State, r: RunId)
    requires Inv(env, s) && StepFinish(s, r).Some?
    ensures Inv(env, StepFinish(s, r).value)
  {
    hide Core, PL.Inv;
    var t := StepFinish(s, r).value;
    PL.InvNext(s.pool, P.Release(r));
    JoinedIsIdle(env, s, r);
    AgentKeepsCore(env, s, t, r);
  }

  // Once main has joined the goroutine, no request is open and the worker is idle.
  lemma JoinedIsIdle(env: Env, s: State, r: RunId)
    requires Core(env, s) && Active(s, r) && s.runs[r].bridge.main.Joined?
    ensures s.runs[r].disp.Idle? && HasOwn(s, r) && Own(s, r).c.host.Free?
  {
    RunFacts(env, s, r);
    hide WorkerOK, ExchangesOK;
    HolderFree(env, s, r);
  }

  // ---------------------------------------------------------------- all steps

  lemma InvNext(env: Env, s: State, e: Event)
    requires env.Sound() && Inv(env, s) && Next(env, s, e).Some?
    ensures Inv(env, Next(env, s, e).value)
  {
    hide Core, PL.Inv;
    match e
    case PoolStep(pe) => PoolKeepsInv(env, s, pe);
    case StartPing(r) => StartPingKeepsInv(env, s, r);
    case PingDone(r) => PingDoneKeepsInv(env, s, r);
    case StartStop(r) => StartStopKeepsInv(env, s, r);
    case StopDone(r) => StopDoneKeepsInv(env, s, r);
    case CloserStartStop => CloserStartStopKeepsInv(env, s);
    case CloserStopDone => CloserStopDoneKeepsInv(env, s);
    case Spawned(r, w) => SpawnedKeepsInv(env, s, r, w);
    case SocketStep(w, se) => SocketKeepsCore(env, s, w, se);
    case BridgeStep(r, be) => BridgeKeepsCore(env, s, r, be);
    case AnswerLocally(r) => LocalKeepsCore(env, s, r);
    case Clear(r) => ClearKeepsCore(env, s, r);
    case ResolveFails(r) => ResolveFailsKeepsCore(env, s, r);
    case Ask(r) => AskKeepsInv(env, s, r);
    case ProbeReturned(r) => ProbeReturnedKeepsCore(env, s, r);
    case Store(r) => StoreKeepsCore(env, s, r);
    case SendProbe(r) => SendProbeKeepsCore(env, s, r);
    case CallReturned(r, f) => CallReturnedKeepsCore(env, s, r, f);
    case Finish(r) => FinishKeepsInv(env, s, r);
  }

  lemma {:induction false} InvRun(env: Env, s: State, es: seq<Event>)
    requires env.Sound() && Inv(env, s) && Run(env, s, es).Some?
    ensures Inv(env, Run(env, s, es).value)
    decreases |es|
  {
    hide Inv;
    if es != [] {
      InvNext(env, s, es[0]);
      InvRun(env, Next(env, s, es[0]).value, es[1..]);
    }
  }
}
