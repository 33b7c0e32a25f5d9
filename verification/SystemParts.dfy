/** Every run of the system is, seen from each of its parts, a run of that part:
    what BridgeRuns.dfy, SocketRuns.dfy and PoolRuns.dfy prove holds inside it. */
module SystemParts {
  import opened Wrappers
  import opened Messages
  import opened System
  import B = Bridge
  import BR = BridgeRuns
  import S = Socket
  import SR = SocketRuns
  import P = Pool
  import PR = PoolRuns

  ghost predicate PoolReaches(p0: P.State, p: P.State) {
    exists es :: P.Run(p0, es) == Some(p)
  }

  ghost predicate BridgeReaches(b: B.State) {
    exists es :: B.Run(B.INIT, es) == Some(b)
  }

  ghost predicate SocketReaches(cd: Codec, c: S.Conn) {
    exists es :: S.Run(cd, S.FRESH, es) == Some(c)
  }

  lemma PoolExtends(p0: P.State, p: P.State, e: P.Event)
    requires PoolReaches(p0, p) && P.Next(p, e).Some?
    ensures PoolReaches(p0, P.Next(p, e).value)
  {
    var es :| P.Run(p0, es) == Some(p);
    PR.RunConcat(p0, es, [e]);
    PR.OneStep(p, e);
    assert P.Run(p0, es + [e]) == P.Next(p, e);
  }

  lemma BridgeExtends(b: B.State, e: B.Event)
    requires BridgeReaches(b) && B.Next(b, e).Some?
    ensures BridgeReaches(B.Next(b, e).value)
  {
    var es :| B.Run(B.INIT, es) == Some(b);
    BR.RunConcat(B.INIT, es, [e]);
    assert B.Run(B.Next(b, e).value, [e][1..]) == B.Next(b, e);
    assert B.Run(B.INIT, es + [e]) == B.Next(b, e);
  }

  lemma SocketExtends(cd: Codec, c: S.Conn, e: S.Event)
    requires SocketReaches(cd, c) && S.Next(cd, c, e).Some?
    ensures SocketReaches(cd, S.Next(cd, c, e).value)
  {
    var es :| S.Run(cd, S.FRESH, es) == Some(c);
    SR.RunConcat(cd, S.FRESH, es, [e]);
    assert S.Run(cd, S.Next(cd, c, e).value, [e][1..]) == S.Next(cd, c, e);
    assert S.Run(cd, S.FRESH, es + [e]) == S.Next(cd, c, e);
  }

  ghost predicate PartsReach(env: Env, p0: P.State, s: State) {
    && PoolReaches(p0, s.pool)
    && (forall r <- s.runs :: BridgeReaches(s.runs[r].bridge))
    && (forall w <- s.conns :: SocketReaches(env.codec, s.conns[w]))
  }

  // The pool event behind a system event, if any.
  function PoolEvent(env: Env, s: State, e: Event): Option<P.Event> {
    match e
    case PoolStep(pe) => Some(pe)
    case StartPing(r) => Some(P.Ping(r))
    case PingDone(r) =>
      (match HandOf(s, r)
       case None => None
       case Some(w) =>
         if w in s.conns && s.conns[w].returned != [] && s.conns[w].returned[|s.conns[w].returned| - 1] == Some(Pong)
         then Some(P.PingOk(r)) else Some(P.PingBad(r)))
    case StartStop(r) => Some(P.StopBegin(r))
    case StopDone(r) => Some(P.StopEnd(r))
    case CloserStartStop => Some(P.CloserStop)
    case CloserStopDone => Some(P.CloserStopped)
    case Spawned(r, w) => Some(P.SpawnOk(r, w))
    case Ask(r) =>
      if !Asking(s, r) then None
      else (match OpFor(env.parse(s.runs[r].bridge.goro.body))
            case None => None
            case Some(op) => Some(P.Ask(r, op)))
    case Finish(r) => Some(P.Release(r))
    case _ => None
  }

  // In each part, a system step is a step of the part or leaves it alone.
  lemma PoolPart(env: Env, s: State, e: Event)
    requires Next(env, s, e).Some?
    ensures var t := Next(env, s, e).value;
            match PoolEvent(env, s, e)
            case Some(pe) => P.Next(s.pool, pe) == Some(t.pool)
            case None => t.pool == s.pool
  {
    PartEvents(env, s, e);
    hide P.Next, StepLock, StepStopDone, RespondIn, StepPingDone;
    match e
    case StartPing(r) => LockMovesPool(env, s, P.StepPing(s.pool, r), HandOf(s, r), OpPing);
    case PingDone(r) => PingMovesPool(s, r);
    case StartStop(r) => LockMovesPool(env, s, P.StepStopBegin(s.pool, r), HandOf(s, r), OpShutdown);
    case CloserStartStop => LockMovesPool(env, s, P.StepCloserStop(s.pool), P.CloserWorker(s.pool.closer), OpShutdown);
    case StopDone(r) => StopMovesPool(s, HandOf(s, r), P.StepStopEnd(s.pool, r));
    case CloserStopDone => StopMovesPool(s, P.CloserWorker(s.pool.closer), P.StepCloserStopped(s.pool));
    case Ask(r) =>
      var op := OpFor(env.parse(s.runs[r].bridge.goro.body)).value;
      LockMovesPool(env, s, P.StepAsk(s.pool, r, op), Some(s.pool.agents[r].w), op);
    case AnswerLocally(r) => RespondingKeepsPool(env, s, r);
    case ResolveFails(r) => RespondingKeepsPool(env, s, r);
    case ProbeReturned(r) => RespondingKeepsPool(env, s, r);
    case SendProbe(r) => RespondingKeepsPool(env, s, r);
    case CallReturned(r, _) => RespondingKeepsPool(env, s, r);
    case _ =>
  }

  // The pool's own step for each event that names one.
  lemma PartEvents(env: Env, s: State, e: Event)
    ensures match e
            case StartPing(r) => P.Next(s.pool, P.Ping(r)) == P.StepPing(s.pool, r)
            case PingDone(r) => P.Next(s.pool, P.PingOk(r)) == P.StepPingOk(s.pool, r)
                                && P.Next(s.pool, P.PingBad(r)) == P.StepPingBad(s.pool, r)
            case StartStop(r) => P.Next(s.pool, P.StopBegin(r)) == P.StepStopBegin(s.pool, r)
            case StopDone(r) => P.Next(s.pool, P.StopEnd(r)) == P.StepStopEnd(s.pool, r)
            case CloserStartStop => P.Next(s.pool, P.CloserStop) == P.StepCloserStop(s.pool)
            case CloserStopDone => P.Next(s.pool, P.CloserStopped) == P.StepCloserStopped(s.pool)
            case Spawned(r, w) => P.Next(s.pool, P.SpawnOk(r, w)) == P.StepSpawnOk(s.pool, r, w)
            case Ask(r) => forall op :: P.Next(s.pool, P.Ask(r, op)) == P.StepAsk(s.pool, r, op)
            case Finish(r) => P.Next(s.pool, P.Release(r)) == P.StepRelease(s.pool, r)
            case _ => true
  {
    hide P.StepPing, P.StepPingOk, P.StepPingBad, P.StepStopBegin, P.StepStopEnd, P.StepCloserStop,
         P.StepCloserStopped, P.StepSpawnOk, P.StepAsk, P.StepRelease;
  }

  lemma LockMovesPool(env: Env, s: State, p: Option<P.State>, w: Option<Wid>, op: Op)
    requires StepLock(env, s, p, w, op).Some?
    ensures p == Some(StepLock(env, s, p, w, op).value.pool)
  {
  }

  lemma StopMovesPool(s: State, w: Option<Wid>, p: Option<P.State>)
    requires StepStopDone(s, w, p).Some?
    ensures p == Some(StepStopDone(s, w, p).value.pool)
  {
  }

  lemma PingMovesPool(s: State, r: RunId)
    requires StepPingDone(s, r).Some?
    ensures HandOf(s, r).Some? && HandOf(s, r).value in s.conns && s.conns[HandOf(s, r).value].returned != []
    ensures var c := s.conns[HandOf(s, r).value];
            Some(StepPingDone(s, r).value.pool) ==
            if c.returned[|c.returned| - 1] == Some(Pong) then P.StepPingOk(s.pool, r) else P.StepPingBad(s.pool, r)
  {
    hide P.StepPingOk, P.StepPingBad;
  }

  lemma RespondingKeepsPool(env: Env, s: State, r: RunId)
    ensures forall resp, at | r in s.runs && RespondIn(env, s, r, resp, at).Some? ::
              RespondIn(env, s, r, resp, at).value.pool == s.pool
  {
    hide Respond;
  }

  lemma BridgePart(env: Env, s: State, e: Event, r: RunId)
    requires Next(env, s, e).Some? && r in Next(env, s, e).value.runs
    ensures var b' := Next(env, s, e).value.runs[r].bridge;
            || b' == B.INIT
            || (r in s.runs && (b' == s.runs[r].bridge || exists be :: B.Next(s.runs[r].bridge, be) == Some(b')))
  {
    hide Next, Responding;
    if e.BridgeStep? {
      BridgeSteps(env, s, e.r, e.be, r);
    } else if Responding(e) {
      RespondingStep(env, s, e, r);
    } else {
      BridgesKept(env, s, e, r);
    }
  }

  lemma BridgeSteps(env: Env, s: State, q: RunId, be: B.Event, r: RunId)
    requires Next(env, s, BridgeStep(q, be)).Some?
    ensures var t := Next(env, s, BridgeStep(q, be)).value;
            t.runs.Keys == s.runs.Keys
            && (r in t.runs ==>
                  || t.runs[r].bridge == s.runs[r].bridge
                  || B.Next(s.runs[r].bridge, be) == Some(t.runs[r].bridge))
  {
    hide B.Next;
  }

  // The steps that may answer a frame.
  predicate Responding(e: Event) {
    e.AnswerLocally? || e.ResolveFails? || e.ProbeReturned? || e.SendProbe? || e.CallReturned?
  }

  lemma BridgesKept(env: Env, s: State, e: Event, r: RunId)
    requires Next(env, s, e).Some? && r in Next(env, s, e).value.runs
    requires !e.BridgeStep? && !Responding(e)
    ensures var b' := Next(env, s, e).value.runs[r].bridge;
            b' == B.INIT || (r in s.runs && b' == s.runs[r].bridge)
  {
    hide S.Next, S.Locked, P.Next, P.StepStopEnd, LocalResponse, RespondIn, ReplyAllowed;
  }

  lemma RespondingStep(env: Env, s: State, e: Event, r: RunId)
    requires Next(env, s, e).Some? && r in Next(env, s, e).value.runs && Responding(e)
    ensures r in s.runs
    ensures var b' := Next(env, s, e).value.runs[r].bridge;
            b' == s.runs[r].bridge || exists be :: B.Next(s.runs[r].bridge, be) == Some(b')
  {
    RespondAnswers(env, s, r);
    hide RespondIn, B.Next, LocalResponse;
  }

  lemma RespondAnswers(env: Env, s: State, r: RunId)
    ensures forall q, resp, at | q in s.runs && RespondIn(env, s, q, resp, at).Some? ::
              var t := RespondIn(env, s, q, resp, at).value;
              t.runs.Keys == s.runs.Keys
              && (r in t.runs ==>
                    if q == r then B.Next(s.runs[r].bridge, B.Answer(env.encResp(resp))) == Some(t.runs[r].bridge)
                    else t.runs[r] == s.runs[r])
  {
    hide B.StepAnswer;
  }

  lemma SocketPart(env: Env, s: State, e: Event, w: Wid)
    requires Next(env, s, e).Some? && w in Next(env, s, e).value.conns
    ensures var c' := Next(env, s, e).value.conns[w];
            || c' == S.FRESH
            || (w in s.conns && (c' == s.conns[w] || exists se :: S.Next(env.codec, s.conns[w], se) == Some(c')))
  {
    hide Next, S.Next;
    if LocksSocket(e) {
      LockingPart(env, s, e, w);
    } else {
      OtherPart(env, s, e, w);
    }
  }

  predicate LocksSocket(e: Event) {
    e.StartPing? || e.StartStop? || e.CloserStartStop? || e.Ask?
  }

  lemma LockingPart(env: Env, s: State, e: Event, w: Wid)
    requires Next(env, s, e).Some? && w in Next(env, s, e).value.conns && LocksSocket(e)
    ensures w in s.conns
    ensures var c' := Next(env, s, e).value.conns[w];
            c' == s.conns[w] || exists se :: S.Next(env.codec, s.conns[w], se) == Some(c')
  {
    if w in s.conns {
      LockIsStep(env.codec, s.conns[w]);
    }
    hide S.Next, S.Locked, P.Log, LocalResponse;
    var c' := Next(env, s, e).value.conns[w];
    var op := if e.StartPing? then OpPing
              else if e.Ask? then OpFor(env.parse(s.runs[e.r].bridge.goro.body)).value else OpShutdown;
    assert c' != s.conns[w] ==> S.Next(env.codec, s.conns[w], S.Lock(op)) == Some(c');
  }

  lemma OtherPart(env: Env, s: State, e: Event, w: Wid)
    requires Next(env, s, e).Some? && w in Next(env, s, e).value.conns && !LocksSocket(e)
    ensures var c' := Next(env, s, e).value.conns[w];
            || c' == S.FRESH
            || (w in s.conns && (c' == s.conns[w] || exists se :: S.Next(env.codec, s.conns[w], se) == Some(c')))
  {
    RespondKeepsConns(env, s);
    hide S.Next, StepLock, RespondIn, P.Next, P.StepStopEnd, P.StepCloserStopped, LocalResponse, ReplyAllowed;
  }

  lemma LockIsStep(cd: Codec, c: S.Conn)
    ensures forall op :: S.Next(cd, c, S.Lock(op)) == S.Locked(cd, c, op)
  {
    hide S.Locked;
  }

  lemma RespondKeepsConns(env: Env, s: State)
    ensures forall q, resp, at | q in s.runs && RespondIn(env, s, q, resp, at).Some? ::
              RespondIn(env, s, q, resp, at).value.conns == s.conns
  {
    hide Respond;
  }

  lemma PartsNext(env: Env, p0: P.State, s: State, e: Event)
    requires PartsReach(env, p0, s) && Next(env, s, e).Some?
    ensures PartsReach(env, p0, Next(env, s, e).value)
  {
    hide Next, PoolReaches, BridgeReaches, SocketReaches;
    var t := Next(env, s, e).value;
    PoolGoesOn(env, p0, s, e);
    forall r <- t.runs ensures BridgeReaches(t.runs[r].bridge) {
      BridgeGoesOn(env, s, e, r);
    }
    forall w <- t.conns ensures SocketReaches(env.codec, t.conns[w]) {
      SocketGoesOn(env, s, e, w);
    }
  }

  lemma PoolGoesOn(env: Env, p0: P.State, s: State, e: Event)
    requires PoolReaches(p0, s.pool) && Next(env, s, e).Some?
    ensures PoolReaches(p0, Next(env, s, e).value.pool)
  {
    hide Next, P.Next, PoolReaches, PoolEvent;
    PoolPart(env, s, e);
    if PoolEvent(env, s, e).Some? {
      PoolExtends(p0, s.pool, PoolEvent(env, s, e).value);
    }
  }

  lemma BridgeGoesOn(env: Env, s: State, e: Event, r: RunId)
    requires Next(env, s, e).Some? && r in Next(env, s, e).value.runs
    requires r in s.runs ==> BridgeReaches(s.runs[r].bridge)
    ensures BridgeReaches(Next(env, s, e).value.runs[r].bridge)
  {
    var b' := Next(env, s, e).value.runs[r].bridge;
    BridgePart(env, s, e, r);
    hide Next, B.Next;
    if b' == B.INIT {
      assert B.Run(B.INIT, []) == Some(B.INIT);
    } else if b' != s.runs[r].bridge {
      var be :| B.Next(s.runs[r].bridge, be) == Some(b');
      BridgeExtends(s.runs[r].bridge, be);
    }
  }

  lemma SocketGoesOn(env: Env, s: State, e: Event, w: Wid)
    requires Next(env, s, e).Some? && w in Next(env, s, e).value.conns
    requires w in s.conns ==> SocketReaches(env.codec, s.conns[w])
    ensures SocketReaches(env.codec, Next(env, s, e).value.conns[w])
  {
    var c' := Next(env, s, e).value.conns[w];
    SocketPart(env, s, e, w);
    hide Next, S.Next;
    if c' == S.FRESH {
      assert S.Run(env.codec, S.FRESH, []) == Some(S.FRESH);
    } else if c' != s.conns[w] {
      var se :| S.Next(env.codec, s.conns[w], se) == Some(c');
      SocketExtends(env.codec, s.conns[w], se);
    }
  }

  lemma {:induction false} PartsRun(env: Env, p0: P.State, s: State, es: seq<Event>)
    requires PartsReach(env, p0, s) && Run(env, s, es).Some?
    ensures PartsReach(env, p0, Run(env, s, es).value)
    decreases |es|
  {
    hide PartsReach;
    if es != [] {
      PartsNext(env, p0, s, es[0]);
      PartsRun(env, p0, Next(env, s, es[0]).value, es[1..]);
    }
  }

  // In every run of the system, the pool makes a run of Pool.dfy, every Run's
  // bridge one of Bridge.dfy and every worker's connection one of Socket.dfy.
  lemma SystemIsItsParts(env: Env, s0: State, es: seq<Event>)
    requires Initial(s0) && Run(env, s0, es).Some?
    ensures P.Initial(s0.pool) && PartsReach(env, s0.pool, Run(env, s0, es).value)
  {
    assert P.Run(s0.pool, []) == Some(s0.pool);
    assert S.Run(env.codec, S.FRESH, []) == Some(S.FRESH);
    PartsRun(env, s0.pool, s0, es);
  }
}
