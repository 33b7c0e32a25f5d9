/** Every bridged call returns and every Run whose module has exited gives its
    worker back: the steps of other Runs, of the pool and of its closing never set
    it back, and each step of its own brings it closer to its end. */
module SystemLiveness {
  import opened Framing
  import opened Wrappers
  import opened Messages
  import opened System
  import opened SystemInv
  import opened SystemSteps
  import opened SystemMoves
  import opened SystemProgress
  import opened SystemRuns
  import B = Bridge
  import BR = BridgeRuns
  import S = Socket
  import SR = SocketRuns
  import P = Pool
  import PL = PoolLogs

  function DispRank(d: Disp): nat {
    match d
    case Idle => 5
    case Cleared => 4
    case Asked(_, _) => 3
    case Storing(_, _, _) => 2
    case Ready(_, _) => 1
  }

  // How far the pipes are from the end of the open call, or of the winding up.
  ghost function PipesOf(b: B.State): (nat, nat) {
    if b.main.InModule? then BR.Rank(b) else (BR.DrainLeft(b), 0)
  }

  // Where the Run stands: the pipes, the dispatch, the worker's socket.
  datatype Standing = Standing(pipes: (nat, nat), disp: nat, socket: nat, left: nat)

  ghost predicate Closer(a: Standing, b: Standing) {
    || BR.Below(a.pipes, b.pipes)
    || (a.pipes == b.pipes &&
        (a.disp < b.disp || (a.disp == b.disp && (a.socket < b.socket || (a.socket == b.socket && a.left < b.left)))))
  }

  ghost function SocketStanding(rs: RunState, c: S.Conn): (nat, nat) {
    if rs.disp.Asked? && c.host.Busy? then (SR.Rank(c).0 + 1, SR.Rank(c).1) else (0, 0)
  }

  ghost function StandingOf(s: State, r: RunId): Standing
    requires HasOwn(s, r)
  {
    var rs, c := s.runs[r], s.conns[s.pool.agents[r].w];
    Standing(PipesOf(rs.bridge), DispRank(rs.disp), SocketStanding(rs, c).0, SocketStanding(rs, c).1)
  }

  // The call has returned the answer to its own frame.
  ghost predicate Over(s: State, r: RunId, asked: seq<bytes>) {
    && Active(s, r) && var b := s.runs[r].bridge;
    && b.shim.Running? && b.asked == asked == b.processed && b.read == b.answers && |b.read| == |asked|
  }

  // Main has joined the goroutine: nothing is left but to release the worker.
  ghost predicate Joined(s: State, r: RunId) {
    Active(s, r) && s.runs[r].bridge.main.Joined?
  }

  // An answer of 4 GiB or more has been begun.
  ghost predicate TooLong(s: State, r: RunId) {
    r in s.runs && !B.Short(s.runs[r].bridge)
  }

  ghost predicate Ended(b: B.State, t: State, r: RunId) {
    if b.main.InModule? then Over(t, r, b.asked) || TooLong(t, r) else Joined(t, r)
  }

  // ---------------------------------------------------------------- own steps

  ghost predicate Nearer(env: Env, s: State, t: State, r: RunId)
    requires r in s.runs
  {
    || (Waiting(env, t, r) && HasOwn(s, r) && HasOwn(t, r) && Closer(StandingOf(t, r), StandingOf(s, r))
        && t.runs[r].bridge.asked == s.runs[r].bridge.asked
        && t.runs[r].bridge.main.InModule? == s.runs[r].bridge.main.InModule?)
    || Ended(s.runs[r].bridge, t, r)
  }

  // A step of the pipes, answering included.
  lemma PipeStep(env: Env, s: State, t: State, r: RunId, be: B.Event)
    requires Waiting(env, s, r) && HasOwn(s, r) && Inv(env, t) && HasOwn(t, r)
    requires B.Next(s.runs[r].bridge, be) == Some(t.runs[r].bridge) && !be.Exit?
    ensures Nearer(env, s, t, r)
  {
    hide Inv, BR.InCall, Draining, PipesOf, B.Next;
    Phase(s.runs[r].bridge);
    if s.runs[r].bridge.main.InModule? {
      CallPipeStep(s.runs[r].bridge, t.runs[r].bridge, be);
    } else {
      DrainPipeStep(s.runs[r].bridge, t.runs[r].bridge, be);
    }
    if BR.Below(PipesOf(t.runs[r].bridge), PipesOf(s.runs[r].bridge)) {
      NotRunning(s, t, r);
    }
  }

  lemma Phase(b: B.State)
    requires BR.InCall(b) || Draining(b)
    ensures if b.main.InModule? then BR.InCall(b) else Draining(b)
  {
  }

  lemma CallPipeStep(b: B.State, b': B.State, be: B.Event)
    requires BR.InCall(b) && B.Next(b, be) == Some(b') && !be.Exit?
    ensures b'.asked == b.asked
    ensures (BR.InCall(b') && b'.main.InModule? && BR.Below(PipesOf(b'), PipesOf(b)))
            || !B.Short(b')
            || (b'.shim.Running? && b'.processed == b.asked && b'.read == b'.answers && |b'.read| == |b.asked|)
  {
    BR.CallStep(b, be);
    BR.AskedStays(b, be);
    if b'.shim.Running? && B.Short(b') {
      BR.ReturnedCall(b, be);
    }
    hide BR.Rank, B.Next;
  }

  lemma DrainPipeStep(b: B.State, b': B.State, be: B.Event)
    requires Draining(b) && B.Next(b, be) == Some(b')
    ensures b'.asked == b.asked && !b'.main.InModule?
    ensures b'.main.Joined? || (Draining(b') && BR.Below(PipesOf(b'), PipesOf(b)))
  {
    hide B.Next, B.Inv, BR.DrainLeft;
    BR.ExitedModule(b);
    B.InvNext(b, be);
    BR.DrainStep(b, be);
    DrainAsksNothing(b, be);
  }

  lemma DrainAsksNothing(b: B.State, be: B.Event)
    requires Draining(b) && B.Next(b, be).Some?
    ensures B.Next(b, be).value.asked == b.asked
  {
  }

  lemma NotRunning(s: State, t: State, r: RunId)
    requires HasOwn(s, r) && HasOwn(t, r) && BR.Below(PipesOf(t.runs[r].bridge), PipesOf(s.runs[r].bridge))
    ensures Closer(StandingOf(t, r), StandingOf(s, r))
  {
    hide PipesOf, BR.Below;
  }

  lemma DispStep(env: Env, s: State, t: State, r: RunId)
    requires Waiting(env, s, r) && HasOwn(s, r) && Inv(env, t) && HasOwn(t, r)
    requires t.runs[r].bridge == s.runs[r].bridge && DispRank(t.runs[r].disp) < DispRank(s.runs[r].disp)
    ensures Nearer(env, s, t, r)
  {
    hide Inv, BR.InCall, Draining, PipesOf, SocketStanding;
  }

  // The leased worker's connection moves on with the request.
  lemma SocketNearer(env: Env, s: State, t: State, r: RunId, se: S.Event)
    requires env.Sound() && Waiting(env, s, r) && HasOwn(s, r) && Inv(env, t) && HasOwn(t, r)
    requires t.pool == s.pool && t.runs == s.runs
    requires var c := SystemSteps.Own(s, r).c; c.host.Busy? && S.Next(env.codec, c, se) == Some(SystemSteps.Own(t, r).c)
    ensures Nearer(env, s, t, r)
  {
    hide Inv, Core, DispOK, BR.InCall, Draining, PipesOf, S.Fits, S.Histories, S.Lockstep, SR.Rank, S.Next;
    WaitingFacts(env, s, r);
    SR.RequestStep(env.codec, SystemSteps.Own(s, r).c, se);
    SocketCloser(s, t, r);
  }

  lemma SocketCloser(s: State, t: State, r: RunId)
    requires HasOwn(s, r) && HasOwn(t, r) && t.pool == s.pool && t.runs == s.runs
    requires s.runs[r].disp.Asked? && SystemSteps.Own(s, r).c.host.Busy?
    requires var c, d := SystemSteps.Own(s, r).c, SystemSteps.Own(t, r).c;
             || !d.host.Busy? || SR.Rank(d).0 < SR.Rank(c).0
             || (SR.Rank(d).0 == SR.Rank(c).0 && SR.Rank(d).1 < SR.Rank(c).1)
    ensures Closer(StandingOf(t, r), StandingOf(s, r))
  {
    hide SR.Rank, PipesOf, BR.Below;
  }

  // Run r still holds its worker.
  lemma StillHolds(env: Env, t: State, r: RunId)
    requires Inv(env, t) && Active(t, r)
    ensures HasOwn(t, r)
  {
    hide Core, PL.Inv;
    DispFacts(env, t, r);
  }

  lemma RespondedShape(env: Env, s: State, r: RunId, resp: Response, at: Option<nat>)
    requires r in s.runs && RespondIn(env, s, r, resp, at).Some?
    ensures var t := RespondIn(env, s, r, resp, at).value;
            && t.pool == s.pool && t.conns == s.conns && r in t.runs
            && B.Next(s.runs[r].bridge, B.Answer(env.encResp(resp))) == Some(t.runs[r].bridge)
  {
  }

  lemma RespondNearer(env: Env, s: State, r: RunId, resp: Response, at: Option<nat>)
    requires Waiting(env, s, r) && RespondIn(env, s, r, resp, at).Some?
    requires Inv(env, RespondIn(env, s, r, resp, at).value)
    ensures Nearer(env, s, RespondIn(env, s, r, resp, at).value, r)
  {
    hide Inv, BR.InCall, Draining, RespondIn;
    RespondedShape(env, s, r, resp, at);
    hide B.Next;
    var t := RespondIn(env, s, r, resp, at).value;
    StillHolds(env, s, r);
    StillHolds(env, t, r);
    PipeStep(env, s, t, r, B.Answer(env.encResp(resp)));
  }

  // Steps of the dispatch that say nothing to the shim.
  predicate Quiet(s: State, r: RunId, e: Event) {
    || e == Clear(r) || e == Ask(r) || e == Store(r)
    || (e == ProbeReturned(r) && Returned(s, r).Some? && Returned(s, r).value.Some?)
  }

  lemma QuietShape(env: Env, s: State, r: RunId, e: Event)
    requires Active(s, r) && Next(env, s, e).Some? && Quiet(s, r, e)
    ensures var t := Next(env, s, e).value;
            Active(t, r) && t.runs[r].bridge == s.runs[r].bridge && DispRank(t.runs[r].disp) < DispRank(s.runs[r].disp)
  {
    hide Next, S.Locked, DispRank, LocalResponse, RespondIn;
    if e.Ask? {
      AskShape(env, s, r);
    } else {
      LocalShape(env, s, r, e);
    }
  }

  lemma AskShape(env: Env, s: State, r: RunId)
    requires Active(s, r) && Next(env, s, Ask(r)).Some?
    ensures var t := Next(env, s, Ask(r)).value;
            Active(t, r) && t.runs[r].bridge == s.runs[r].bridge && DispRank(t.runs[r].disp) < DispRank(s.runs[r].disp)
  {
    hide S.Locked, P.Log;
  }

  lemma LocalShape(env: Env, s: State, r: RunId, e: Event)
    requires Active(s, r) && Next(env, s, e).Some? && Quiet(s, r, e) && !e.Ask?
    ensures var t := Next(env, s, e).value;
            Active(t, r) && t.runs[r].bridge == s.runs[r].bridge && DispRank(t.runs[r].disp) < DispRank(s.runs[r].disp)
  {
    hide StepLock, RespondIn, LocalResponse, P.StepAsk;
  }

  lemma QuietStep(env: Env, s: State, r: RunId, e: Event)
    requires env.Sound() && Waiting(env, s, r) && Next(env, s, e).Some? && Quiet(s, r, e)
    ensures Nearer(env, s, Next(env, s, e).value, r)
  {
    hide Next, Inv, BR.InCall, Draining, Nearer, Quiet;
    QuietShape(env, s, r, e);
    InvNext(env, s, e);
    StillHolds(env, s, r);
    StillHolds(env, Next(env, s, e).value, r);
    DispStep(env, s, Next(env, s, e).value, r);
  }

  // Every step that helps brings the call closer to its end, or ends it.
  lemma HelpingStep(env: Env, s: State, r: RunId, e: Event)
    requires env.Sound() && Waiting(env, s, r) && Next(env, s, e).Some? && Helps(s, r, e)
    ensures Nearer(env, s, Next(env, s, e).value, r)
  {
    hide Inv, BR.InCall, Draining, RespondIn, B.Next, S.Next, S.Locked, P.StepAsk, Nearer, LocalResponse, ReplyAllowed;
    var t := Next(env, s, e).value;
    InvNext(env, s, e);
    StillHolds(env, s, r);
    match e
    case AnswerLocally(_) => RespondNearer(env, s, r, LocalResponse(env, s, r).value, None);
    case ResolveFails(_) => RespondNearer(env, s, r, Failure(BAD_ARGUMENT), None);
    case SendProbe(_) => RespondNearer(env, s, r, s.runs[r].disp.resp, Some(s.runs[r].disp.at));
    case CallReturned(_, f) =>
      RespondNearer(env, s, r, ResponseTo(Returned(s, r).value, f), Some(s.runs[r].disp.at));
    case ProbeReturned(_) =>
      if Returned(s, r).value.None? {
        RespondNearer(env, s, r, Failure(NO_REPLY), Some(s.runs[r].disp.at));
      } else {
        QuietStep(env, s, r, e);
      }
    case BridgeStep(_, be) =>
      StillHolds(env, t, r);
      PipeStep(env, s, t, r, be);
    case SocketStep(w, se) =>
      StillHolds(env, t, r);
      LeaseHeld(env, s, r);
      SocketNearer(env, s, t, r, se);
    case _ => QuietStep(env, s, r, e);
  }

  lemma LeaseHeld(env: Env, s: State, r: RunId)
    requires Inv(env, s) && Active(s, r)
    ensures r in s.pool.lease && s.pool.lease[r] == s.pool.agents[r].w
  {
    hide Core, PL.Inv;
    DispFacts(env, s, r);
  }

  // ---------------------------------------------------------------- others' steps

  predicate Ends(r: RunId, e: Event) { e == BridgeStep(r, B.Exit) }

  // No step of anyone else touches Run r or its place in the pool.
  lemma RunUntouched(env: Env, s: State, r: RunId, e: Event)
    requires Active(s, r) && !s.runs[r].bridge.main.Joined?
    requires Next(env, s, e).Some? && !Helps(s, r, e) && !Ends(r, e)
    ensures var t := Next(env, s, e).value;
            && r in t.runs && t.runs[r] == s.runs[r]
            && r in t.pool.agents && t.pool.agents[r] == s.pool.agents[r]
  {
    hide Next, Helps, Ends;
    if StartsRequest(e) {
      LockSpares(env, s, r, e);
    } else {
      OtherSpares(env, s, r, e);
    }
  }

  lemma OtherSpares(env: Env, s: State, r: RunId, e: Event)
    requires Active(s, r) && !s.runs[r].bridge.main.Joined?
    requires Next(env, s, e).Some? && !Helps(s, r, e) && !Ends(r, e) && !StartsRequest(e)
    ensures var t := Next(env, s, e).value;
            && r in t.runs && t.runs[r] == s.runs[r]
            && r in t.pool.agents && t.pool.agents[r] == s.pool.agents[r]
  {
    hide Next, Helps, Ends;
    if OfPool(e) {
      PoolSpares(env, s, r, e);
    } else {
      DispatchSpares(env, s, r, e);
    }
  }

  // Steps of the pool that start no request.
  predicate OfPool(e: Event) {
    e.PoolStep? || e.PingDone? || e.StopDone? || e.CloserStopDone? || e.Spawned? || e.Finish?
  }

  lemma PoolSpares(env: Env, s: State, r: RunId, e: Event)
    requires Active(s, r) && !s.runs[r].bridge.main.Joined? && Next(env, s, e).Some? && OfPool(e)
    ensures var t := Next(env, s, e).value;
            && r in t.runs && t.runs[r] == s.runs[r]
            && r in t.pool.agents && t.pool.agents[r] == s.pool.agents[r]
  {
    hide Active, P.Next, StepStopDone, P.StepStopEnd, P.StepCloserStopped, StepPingDone, StepSpawned, StepFinish;
    HoldsStill(s, r);
    StopSpares(s, r);
    GrantSpares(s, r);
    FinishSpares(s, r);
    if e.PoolStep? {
      PoolStepSpares(s.pool, r, e.pe);
    }
  }

  lemma HoldsStill(s: State, r: RunId)
    requires Active(s, r)
    ensures r in s.runs && r in s.pool.agents && s.pool.agents[r].Holding?
  {
  }

  lemma GrantSpares(s: State, r: RunId)
    requires Active(s, r)
    ensures forall q | StepPingDone(s, q).Some? ::
              var t := StepPingDone(s, q).value;
              r in t.runs && t.runs[r] == s.runs[r] && r in t.pool.agents && t.pool.agents[r] == s.pool.agents[r]
    ensures forall q, w | StepSpawned(s, q, w).Some? ::
              var t := StepSpawned(s, q, w).value;
              r in t.runs && t.runs[r] == s.runs[r] && r in t.pool.agents && t.pool.agents[r] == s.pool.agents[r]
  {
  }

  lemma FinishSpares(s: State, r: RunId)
    requires Active(s, r) && !s.runs[r].bridge.main.Joined?
    ensures forall q | StepFinish(s, q).Some? ::
              var t := StepFinish(s, q).value;
              t.runs == s.runs && r in t.pool.agents && t.pool.agents[r] == s.pool.agents[r]
  {
  }

  lemma DispatchSpares(env: Env, s: State, r: RunId, e: Event)
    requires Active(s, r) && Next(env, s, e).Some? && !Helps(s, r, e) && !Ends(r, e)
    requires !StartsRequest(e) && !OfPool(e)
    ensures var t := Next(env, s, e).value;
            && r in t.runs && t.runs[r] == s.runs[r]
            && r in t.pool.agents && t.pool.agents[r] == s.pool.agents[r]
  {
    hide S.Next, ReplyAllowed, LocalResponse, B.Next, RespondIn;
    RespondSpares(env, s, r);
  }

  lemma LockSpares(env: Env, s: State, r: RunId, e: Event)
    requires Active(s, r) && StartsRequest(e) && Next(env, s, e).Some? && !Helps(s, r, e)
    ensures var t := Next(env, s, e).value;
            && r in t.runs && t.runs[r] == s.runs[r]
            && r in t.pool.agents && t.pool.agents[r] == s.pool.agents[r]
  {
    hide S.Locked, P.Log, LocalResponse;
  }

  lemma RespondSpares(env: Env, s: State, r: RunId)
    ensures forall q, resp, at | q in s.runs && RespondIn(env, s, q, resp, at).Some? ::
              var t := RespondIn(env, s, q, resp, at).value;
              t.pool == s.pool && (q != r && r in s.runs ==> r in t.runs && t.runs[r] == s.runs[r])
  {
    hide Respond;
  }

  lemma StopSpares(s: State, r: RunId)
    requires Active(s, r)
    ensures forall q | StepStopDone(s, HandOf(s, q), P.StepStopEnd(s.pool, q)).Some? ::
              var t := StepStopDone(s, HandOf(s, q), P.StepStopEnd(s.pool, q)).value;
              t.runs == s.runs && r in t.pool.agents && t.pool.agents[r] == s.pool.agents[r]
    ensures var done := StepStopDone(s, P.CloserWorker(s.pool.closer), P.StepCloserStopped(s.pool));
            done.Some? ==> done.value.runs == s.runs && done.value.pool.agents == s.pool.agents
  {
  }

  lemma PoolStepSpares(p: P.State, r: RunId, pe: P.Event)
    requires r in p.agents && p.agents[r].Holding? && TouchesNoSocket(pe) && P.Next(p, pe).Some?
    ensures var q := P.Next(p, pe).value; r in q.agents && q.agents[r] == p.agents[r]
  {
  }

  // Only the party that owns a worker can start a request to it.
  lemma OnlyHolder(env: Env, s: State, r: RunId, q: RunId, w: Wid)
    requires Inv(env, s) && Active(s, r) && q != r
    requires w == s.pool.agents[r].w
    ensures HandOf(s, q) != Some(w) && P.CloserWorker(s.pool.closer) != Some(w) && w in s.conns && w in s.pool.log
  {
    hide WorkersOK, RunsOK, MutexOK, PL.LogsFormed, PL.LogsOwned, PL.StopsMatch, PL.Issues, P.Counted, P.Phases;
    assert P.HeldBy(s.pool, r, w);
    assert HandOf(s, q) == Some(w) ==> P.HeldBy(s.pool, q, w);
  }

  // The connection of r's worker changes only by its own steps.
  lemma ConnUntouched(env: Env, s: State, r: RunId, e: Event, w: Wid)
    requires Active(s, r) && w == s.pool.agents[r].w && w in s.conns && w in s.pool.log
    requires P.CloserWorker(s.pool.closer) != Some(w) && forall q | q != r :: HandOf(s, q) != Some(w)
    requires Next(env, s, e).Some? && !Helps(s, r, e)
    ensures var t := Next(env, s, e).value;
            w in t.conns && (t.conns[w] == s.conns[w]
                             || (e.SocketStep? && e.w == w && !e.se.Lock?
                                 && S.Next(env.codec, s.conns[w], e.se) == Some(t.conns[w])))
  {
    hide Next, Helps, S.Next, HandOf;
    if StartsRequest(e) {
      LockUntouched(env, s, r, e, w);
    } else {
      NoLockUntouched(env, s, e, w);
    }
  }

  // The steps that take a mutex.
  predicate StartsRequest(e: Event) {
    e.StartPing? || e.StartStop? || e.CloserStartStop? || e.Ask?
  }

  lemma LockUntouched(env: Env, s: State, r: RunId, e: Event, w: Wid)
    requires Active(s, r) && w == s.pool.agents[r].w && w in s.conns
    requires P.CloserWorker(s.pool.closer) != Some(w) && forall q | q != r :: HandOf(s, q) != Some(w)
    requires Next(env, s, e).Some? && !Helps(s, r, e) && StartsRequest(e)
    ensures w in Next(env, s, e).value.conns && Next(env, s, e).value.conns[w] == s.conns[w]
  {
    hide S.Locked, LocalResponse, StepLock;
    match e
    case StartPing(q) => LockElsewhere(env, s, P.StepPing(s.pool, q), HandOf(s, q), OpPing, w);
    case StartStop(q) => LockElsewhere(env, s, P.StepStopBegin(s.pool, q), HandOf(s, q), OpShutdown, w);
    case CloserStartStop =>
      LockElsewhere(env, s, P.StepCloserStop(s.pool), P.CloserWorker(s.pool.closer), OpShutdown, w);
    case Ask(q) =>
      var op := OpFor(env.parse(s.runs[q].bridge.goro.body)).value;
      assert q != r && HandOf(s, q) == Some(s.pool.agents[q].w);
      LockElsewhere(env, s, P.StepAsk(s.pool, q, op), Some(s.pool.agents[q].w), op, w);
  }

  lemma NoLockUntouched(env: Env, s: State, e: Event, w: Wid)
    requires w in s.conns && w in s.pool.log && Next(env, s, e).Some? && !StartsRequest(e)
    ensures var t := Next(env, s, e).value;
            w in t.conns && (t.conns[w] == s.conns[w]
                             || (e.SocketStep? && e.w == w && !e.se.Lock?
                                 && S.Next(env.codec, s.conns[w], e.se) == Some(t.conns[w])))
  {
    hide S.Next, ReplyAllowed, LocalResponse, P.Next, RespondIn, P.StepStopEnd, P.StepCloserStopped, StepLock;
    RespondKeepsConns(env, s);
  }

  lemma RespondKeepsConns(env: Env, s: State)
    ensures forall q, resp, at | q in s.runs && RespondIn(env, s, q, resp, at).Some? ::
              RespondIn(env, s, q, resp, at).value.conns == s.conns
  {
    hide Respond;
  }

  lemma LockElsewhere(env: Env, s: State, p: Option<P.State>, at: Option<Wid>, op: Op, w: Wid)
    requires StepLock(env, s, p, at, op).Some? && w in s.conns
    ensures p.Some? && at.Some?
    ensures at != Some(w) ==>
              w in StepLock(env, s, p, at, op).value.conns && StepLock(env, s, p, at, op).value.conns[w] == s.conns[w]
  {
    hide S.Locked;
  }

  lemma IdleStaysIdle(cd: Codec, c: S.Conn, se: S.Event)
    requires !c.host.Busy? && !se.Lock? && S.Next(cd, c, se).Some?
    ensures !S.Next(cd, c, se).value.host.Busy?
  {
  }

  // Nor does any of them move the waiting call back.
  lemma OtherStep(env: Env, s: State, r: RunId, e: Event)
    requires env.Sound() && Waiting(env, s, r) && Next(env, s, e).Some? && !Helps(s, r, e) && !Ends(r, e)
    ensures var t := Next(env, s, e).value;
            && Waiting(env, t, r) && t.runs[r] == s.runs[r]
            && HasOwn(s, r) && HasOwn(t, r) && StandingOf(t, r) == StandingOf(s, r)
  {
    hide Next, S.Next, Inv, Helps, BR.InCall, Draining, PipesOf, SR.Rank;
    var t, w := Next(env, s, e).value, s.pool.agents[r].w;
    InvNext(env, s, e);
    NotJoined(s, r);
    RunUntouched(env, s, r, e);
    StillHolds(env, s, r);
    StillHolds(env, t, r);
    LeaseHeld(env, s, r);
    forall q | q != r ensures HandOf(s, q) != Some(w) {
      OnlyHolder(env, s, r, q, w);
    }
    OnlyHolder(env, s, r, r + 1, w);
    ConnUntouched(env, s, r, e, w);
    if t.conns[w] != s.conns[w] {
      NotHelping(s, r, e);
      IdleStaysIdle(env.codec, s.conns[w], e.se);
    }
  }

  lemma NotHelping(s: State, r: RunId, e: Event)
    requires !Helps(s, r, e) && e.SocketStep? && r in s.pool.lease && s.pool.lease[r] == e.w && e.w in s.conns
    ensures !s.conns[e.w].host.Busy?
  {
  }

  lemma NotJoined(s: State, r: RunId)
    requires r in s.runs && (BR.InCall(s.runs[r].bridge) || Draining(s.runs[r].bridge))
    ensures !s.runs[r].bridge.main.Joined?
  {
  }

  // ---------------------------------------------------------------- the call returns

  // An infinite behaviour of the system, pauses allowed.
  ghost predicate Behaviour(env: Env, at: nat -> State, ev: nat -> Option<Event>) {
    forall n: nat {:trigger ev(n)} ::
      if ev(n).None? then at(n + 1) == at(n) else Next(env, at(n), ev(n).value) == Some(at(n + 1))
  }

  ghost predicate HelpedAt(at: nat -> State, ev: nat -> Option<Event>, r: RunId, n: nat) {
    ev(n).Some? && Helps(at(n), r, ev(n).value)
  }

  // While Run r waits, it is its turn again and again.
  ghost predicate Serves(env: Env, at: nat -> State, ev: nat -> Option<Event>, r: RunId) {
    forall n: nat | Waiting(env, at(n), r) :: exists m: nat :: m >= n && HelpedAt(at, ev, r, m)
  }

  // A waiting Run comes to the end of its call, or of its winding up, unless its
  // module exits during the call.
  lemma WaitEnds(env: Env, at: nat -> State, ev: nat -> Option<Event>, r: RunId, n: nat) returns (m: nat)
    requires env.Sound() && Behaviour(env, at, ev) && Serves(env, at, ev, r)
    requires Waiting(env, at(n), r) && HasOwn(at(n), r)
    ensures m >= n
    ensures Ended(at(n).runs[r].bridge, at(m), r)
            || (at(n).runs[r].bridge.main.InModule? && ev(m) == Some(BridgeStep(r, B.Exit)))
    decreases StandingOf(at(n), r).pipes.0, StandingOf(at(n), r).pipes.1, StandingOf(at(n), r).disp,
              StandingOf(at(n), r).socket, StandingOf(at(n), r).left, 1, 0
  {
    hide Waiting, StandingOf, Ended, Next, Helps;
    var h :| h >= n && HelpedAt(at, ev, r, h);
    m := WaitMoves(env, at, ev, r, n, h);
  }

  lemma WaitMoves(env: Env, at: nat -> State, ev: nat -> Option<Event>, r: RunId, n: nat, h: nat) returns (m: nat)
    requires env.Sound() && Behaviour(env, at, ev) && Serves(env, at, ev, r)
    requires Waiting(env, at(n), r) && HasOwn(at(n), r)
    requires h >= n && HelpedAt(at, ev, r, h)
    ensures m >= n
    ensures Ended(at(n).runs[r].bridge, at(m), r)
            || (at(n).runs[r].bridge.main.InModule? && ev(m) == Some(BridgeStep(r, B.Exit)))
    decreases StandingOf(at(n), r).pipes.0, StandingOf(at(n), r).pipes.1, StandingOf(at(n), r).disp,
              StandingOf(at(n), r).socket, StandingOf(at(n), r).left, 0, h - n
  {
    hide Waiting, StandingOf, Ended, Next, Helps, Inv, BR.InCall, Draining, Serves, Nearer, DispRank;
    match ev(n)
    case None => m := WaitMoves(env, at, ev, r, n + 1, h);
    case Some(e) =>
      if Ends(r, e) {
        ExitsOnce(env, at(n), r);
        return n;
      }
      if Ended(at(n).runs[r].bridge, at(n + 1), r) {
        return n + 1;
      }
      GoesOn(env, at(n), r, e);
      if Helps(at(n), r, e) {
        m := WaitEnds(env, at, ev, r, n + 1);
      } else {
        m := WaitMoves(env, at, ev, r, n + 1, h);
      }
  }

  // A step that is not the end brings the same end closer or leaves it as far.
  lemma GoesOn(env: Env, s: State, r: RunId, e: Event)
    requires env.Sound() && Waiting(env, s, r) && HasOwn(s, r) && Next(env, s, e).Some? && !Ends(r, e)
    requires r in s.runs && !Ended(s.runs[r].bridge, Next(env, s, e).value, r)
    ensures var t := Next(env, s, e).value;
            && r in t.runs && Waiting(env, t, r) && HasOwn(t, r)
            && (if Helps(s, r, e) then Closer(StandingOf(t, r), StandingOf(s, r))
                else StandingOf(t, r) == StandingOf(s, r))
            && t.runs[r].bridge.main.InModule? == s.runs[r].bridge.main.InModule?
            && forall u :: Ended(t.runs[r].bridge, u, r) == Ended(s.runs[r].bridge, u, r)
  {
    hide Waiting, StandingOf, Ended, Next, Helps, Inv, BR.InCall, Draining, Nearer, Closer;
    if Helps(s, r, e) {
      HelpingStep(env, s, r, e);
      PhaseKept(env, s, Next(env, s, e).value, r);
    } else {
      OtherStep(env, s, r, e);
    }
  }

  // The end to come is the same.
  lemma PhaseKept(env: Env, s: State, t: State, r: RunId)
    requires r in s.runs && Nearer(env, s, t, r) && !Ended(s.runs[r].bridge, t, r)
    ensures r in t.runs && Waiting(env, t, r) && HasOwn(s, r) && HasOwn(t, r)
    ensures Closer(StandingOf(t, r), StandingOf(s, r))
    ensures t.runs[r].bridge.main.InModule? == s.runs[r].bridge.main.InModule?
    ensures forall u :: Ended(t.runs[r].bridge, u, r) == Ended(s.runs[r].bridge, u, r)
  {
    hide Waiting, Closer, StandingOf, Over, Joined;
  }

  lemma ExitsOnce(env: Env, s: State, r: RunId)
    requires r in s.runs && Next(env, s, BridgeStep(r, B.Exit)).Some?
    ensures s.runs[r].bridge.main.InModule?
  {
  }

  lemma {:induction false} InvAlong(env: Env, at: nat -> State, ev: nat -> Option<Event>, n: nat)
    requires env.Sound() && Inv(env, at(0)) && Behaviour(env, at, ev)
    ensures Inv(env, at(n))
  {
    hide Inv, Next;
    if n > 0 {
      InvAlong(env, at, ev, n - 1);
      if ev(n - 1).Some? {
        InvNext(env, at(n - 1), ev(n - 1).value);
      }
    }
  }

  // In every behaviour that serves Run r, from every point at which its shim
  // waits, all frames in range: however the other Runs, the pool, its closing and
  // failing workers are scheduled, the call returns, and with the answer to its
  // own frame, unless the module exits first or an answer of 4 GiB or more is begun.
  lemma EveryCallReturns(env: Env, at: nat -> State, ev: nat -> Option<Event>, r: RunId, n: nat) returns (m: nat)
    requires env.Sound() && Reachable(env, at(0)) && Behaviour(env, at, ev) && Serves(env, at, ev, r)
    requires Active(at(n), r) && at(n).runs[r].bridge.main.InModule? && !at(n).runs[r].bridge.shim.Running?
    requires BR.AllInRange(at(n).runs[r].bridge)
    ensures m >= n
    ensures || ev(m) == Some(BridgeStep(r, B.Exit)) || TooLong(at(m), r)
            || Over(at(m), r, at(n).runs[r].bridge.asked)
  {
    hide Inv, Reachable, Over, Behaviour, Serves;
    if TooLong(at(n), r) {
      return n;
    }
    ReachableInv(env, at(0));
    InvAlong(env, at, ev, n);
    BridgeInv(env, at(n), r);
    StillHolds(env, at(n), r);
    m := WaitEnds(env, at, ev, r, n);
  }

  // And at whatever step a Run's module exits, with the goroutine in the middle of
  // a write or the worker in the middle of a request, and with frames of any
  // length: in every such behaviour the Run ends and can release its worker.
  lemma EveryRunReleases(env: Env, at: nat -> State, ev: nat -> Option<Event>, r: RunId, n: nat) returns (m: nat)
    requires env.Sound() && Reachable(env, at(0)) && Behaviour(env, at, ev) && Serves(env, at, ev, r)
    requires Active(at(n), r) && !at(n).runs[r].bridge.main.InModule?
    ensures m >= n && Joined(at(m), r) && Next(env, at(m), Finish(r)).Some?
  {
    hide Inv, Reachable, Behaviour, Serves, Next, BR.InCall, B.Inv, Joined;
    ReachableInv(env, at(0));
    InvAlong(env, at, ev, n);
    BridgeInv(env, at(n), r);
    m := n;
    if at(n).runs[r].bridge.main.Joined? {
      NowJoined(at(n), r);
    } else {
      StillHolds(env, at(n), r);
      NowDraining(env, at(n), r);
      m := WaitEnds(env, at, ev, r, n);
    }
    JoinedFinishes(env, at(m), r);
  }

  lemma NowJoined(s: State, r: RunId)
    requires Active(s, r) && s.runs[r].bridge.main.Joined?
    ensures Joined(s, r)
  {
  }

  lemma NowDraining(env: Env, s: State, r: RunId)
    requires Inv(env, s) && Active(s, r) && B.Inv(s.runs[r].bridge)
    requires !s.runs[r].bridge.main.InModule? && !s.runs[r].bridge.main.Joined?
    ensures Waiting(env, s, r)
  {
    hide Inv;
  }

  lemma JoinedFinishes(env: Env, s: State, r: RunId)
    requires Joined(s, r)
    ensures Next(env, s, Finish(r)).Some?
  {
  }

  lemma BridgeInv(env: Env, s: State, r: RunId)
    requires Inv(env, s) && Active(s, r)
    ensures B.Inv(s.runs[r].bridge)
  {
    hide Core, PL.Inv, B.Inv;
    RunFacts(env, s, r);
  }

  // ---------------------------------------------------------------- such behaviours exist

  // Let whoever helps Run r move, and nobody else.
  ghost function HelpfulEvent(env: Env, s: State, r: RunId): Option<Event> {
    if exists e :: Next(env, s, e).Some? && Helps(s, r, e)
    then (var e :| Next(env, s, e).Some? && Helps(s, r, e); Some(e))
    else None
  }

  ghost function Served(env: Env, s: State, r: RunId, n: nat): State {
    if n == 0 then s
    else
      var t := Served(env, s, r, n - 1);
      if HelpfulEvent(env, t, r).Some? then Next(env, t, HelpfulEvent(env, t, r).value).value else t
  }

  // From every state there is a behaviour that serves Run r, and nobody else.
  lemma ServingBehaviour(env: Env, s: State, r: RunId, answer: Request -> Reply)
    returns (at: nat -> State, ev: nat -> Option<Event>)
    requires env.Sound() && ShortTexts(env) && Answerer(env, answer)
    ensures at(0) == s && Behaviour(env, at, ev) && Serves(env, at, ev, r)
    ensures forall n: nat :: ev(n).Some? ==> Helps(at(n), r, ev(n).value)
  {
    hide Next, Helps, Waiting, Answerer, ShortTexts;
    at := (n: nat) => Served(env, s, r, n);
    ev := (n: nat) => HelpfulEvent(env, Served(env, s, r, n), r);
    forall n: nat | Waiting(env, at(n), r) ensures HelpedAt(at, ev, r, n) {
      var e := Progress(env, at(n), r, answer);
    }
  }
}
