/** Every step of the system keeps its invariant. */
module SystemSteps {
  import opened Wrappers
  import opened Messages
  import opened System
  import opened SystemInv
  import B = Bridge
  import S = Socket
  import P = Pool

  // ---------------------------------------------------------------- one worker

  lemma SocketKeepsWorker(env: Env, l: seq<P.Use>, c: S.Conn, e: S.Event)
    requires env.Sound() && WorkerOK(env, l, c)
    requires !e.Lock? && ReplyAllowed(env, c, e) && S.Next(env.codec, c, e).Some?
    ensures var d := S.Next(env.codec, c, e).value;
            && WorkerOK(env, l, d) && Grows(c, d) && d.begun == c.begun
            && (c.host.Free? ==> d.host.Free?)
            && (c.host.Busy? && !c.host.req.Shutdown? ==>
                  !d.host.Closed? && (d.host.Busy? ==> d.host.req == c.host.req))
  {
    var d := S.Next(env.codec, c, e).value;
    SocketFits(env, c, e);
    S.InvNext(env.codec, c, e);
    SocketProbes(env, l, c, e);
  }

  lemma SocketFits(env: Env, c: S.Conn, e: S.Event)
    requires S.Fits(env.codec, c) && ReplyAllowed(env, c, e) && S.Next(env.codec, c, e).Some?
    ensures S.Fits(env.codec, S.Next(env.codec, c, e).value)
  {
  }

  lemma SocketProbes(env: Env, l: seq<P.Use>, c: S.Conn, e: S.Event)
    requires WorkerOK(env, l, c) && ReplyAllowed(env, c, e) && S.Next(env.codec, c, e).Some?
    ensures var d := S.Next(env.codec, c, e).value;
            forall i | 0 <= i < |d.served| && d.served[i].0.Probe? ::
              InfoOf(d.served[i].1) == env.probe(d.served[i].0.target)
  {
  }

  lemma LockKeepsWorker(env: Env, l: seq<P.Use>, c: S.Conn, u: P.Use)
    requires env.Sound() && WorkerOK(env, l, c) && S.Locked(env.codec, c, u.op).Some?
    requires u.op.OpCall? ==> u.who.ByRun? && env.allow(u.who.r, u.op.func)
    ensures var d := S.Locked(env.codec, c, u.op).value;
            && WorkerOK(env, l + [u], d) && Grows(c, d)
            && |d.begun| == |c.begun| + 1 && OpOf(d.begun[|c.begun|]) == u.op
            && d.host.Busy? && OpOf(d.host.req) == u.op
  {
    var d := S.Locked(env.codec, c, u.op).value;
    S.StepLock(env.codec, c, u.op);
    assert d.begun[|c.begun|] == RequestOf(u.op, NextId(c.seqNo));
  }

  // ---------------------------------------------------------------- one Run

  lemma RunSurvives(env: Env, r: RunId, rs: RunState, k: Leased, k2: Leased)
    requires RunOK(env, r, rs, k) && Grows(k.c, k2.c) && k.l <= k2.l
    requires rs.disp.Asked? ==> |k2.l| == |k.l|
    ensures RunOK(env, r, rs, k2)
  {
    hide B.Inv, ExchangeOK;
    forall i | 0 <= i < |rs.hist| ensures ExchangeOK(env, r, rs.hist[i], k2) {
      ExchangeSurvives(env, r, rs.hist[i], k, k2);
    }
  }

  lemma ExchangeSurvives(env: Env, r: RunId, x: Exchange, k: Leased, k2: Leased)
    requires ExchangeOK(env, r, x, k) && Grows(k.c, k2.c) && k.l <= k2.l
    ensures ExchangeOK(env, r, x, k2)
  {
  }

  lemma BridgeKeepsRun(env: Env, r: RunId, rs: RunState, k: Leased, be: B.Event)
    requires RunOK(env, r, rs, k) && !be.Answer? && B.Next(rs.bridge, be).Some?
    ensures RunOK(env, r, rs.(bridge := B.Next(rs.bridge, be).value), k)
  {
    B.InvNext(rs.bridge, be);
    BridgeKeepsWorking(rs.bridge, be);
  }

  // Only answering ends the work on a request, and only answering is recorded.
  lemma BridgeKeepsWorking(b: B.State, be: B.Event)
    requires !be.Answer? && B.Next(b, be).Some?
    ensures var b' := B.Next(b, be).value;
            && b'.processed == b.processed && b'.answers == b.answers
            && (b.goro.Working? ==> b'.goro == b.goro)
  {
  }

  lemma RespondKeepsRun(env: Env, r: RunId, rs: RunState, k: Leased, resp: Response, at: Option<nat>)
    requires env.Sound() && RunOK(env, r, rs, k) && Respond(env, rs, resp, at).Some?
    requires ExchangeOK(env, r, Exchange(rs.bridge.goro.body, resp, at), k)
    requires match at
             case None => AtsBelow(rs.hist, |k.l|)
             case Some(n) => n < |k.l| && AtsBelow(rs.hist, n)
    ensures RunOK(env, r, Respond(env, rs, resp, at).value, k)
    ensures Respond(env, rs, resp, at).value.disp.Idle?
  {
    hide HistOK, ExchangeOK, AtsBelow, B.Inv, B.StepAnswer;
    var t := Respond(env, rs, resp, at).value;
    var x := Exchange(rs.bridge.goro.body, resp, at);
    RespondHist(env, rs, resp, at);
    AtsAppend(rs.hist, x, |k.l|);
    assert t.hist == rs.hist + [x] && t.disp.Idle?;
  }

  lemma RespondHist(env: Env, rs: RunState, resp: Response, at: Option<nat>)
    requires HistOK(env, rs) && Respond(env, rs, resp, at).Some?
    ensures HistOK(env, Respond(env, rs, resp, at).value)
  {
    B.InvAnswer(rs.bridge, env.encResp(resp));
    hide B.Histories, B.Conversation;
    RespondRecorded(env, rs, resp, at);
  }

  lemma RespondRecorded(env: Env, rs: RunState, resp: Response, at: Option<nat>)
    requires Recorded(env, rs) && Respond(env, rs, resp, at).Some?
    ensures Recorded(env, Respond(env, rs, resp, at).value)
  {
    var t := Respond(env, rs, resp, at).value;
    assert t.bridge.processed[..|t.bridge.processed| - 1] == rs.bridge.processed;
  }

  lemma AtsAppend(hist: seq<Exchange>, x: Exchange, n: nat)
    requires match x.at case None => AtsBelow(hist, n) case Some(m) => m < n && AtsBelow(hist, m)
    ensures AtsBelow(hist + [x], n)
  {
    var h := hist + [x];
    forall i | 0 <= i < |h| && h[i].at.Some? ensures h[i].at.value < n {
      if i < |hist| {
        assert h[i] == hist[i];
      }
    }
  }

  // ---------------------------------------------------------------- frames

  // Only Run r's state changes.
  lemma RunChanges(env: Env, s: State, r: RunId, rs: RunState)
    requires Core(env, s) && Active(s, r) && s.pool.lease[r] in s.conns
    requires RunOK(env, r, rs, LeasedTo(s, r))
    requires rs.disp.Asked? == s.runs[r].disp.Asked? || s.conns[s.pool.lease[r]].host.Free?
    ensures Core(env, s.(runs := s.runs[r := rs]))
  {
    hide RunOK, WorkerOK;
    var t := s.(runs := s.runs[r := rs]);
    assert TurnOK(s, r, s.pool.agents[r]);
    forall q <- t.pool.agents ensures TurnOK(t, q, t.pool.agents[q]) {
      assert TurnOK(s, q, s.pool.agents[q]);
    }
  }

  lemma RunFacts(env: Env, s: State, r: RunId)
    requires Core(env, s) && Active(s, r)
    ensures r in s.pool.lease && s.pool.lease[r] == s.pool.agents[r].w && s.pool.lease[r] in s.conns
    ensures RunOK(env, r, s.runs[r], LeasedTo(s, r))
    ensures CacheOK(env, s)
  {
    hide RunOK, WorkerOK;
  }

  lemma LeaseIsHand(env: Env, s: State, r: RunId)
    requires Core(env, s) && Active(s, r)
    ensures r in s.pool.lease && s.pool.lease[r] == s.pool.agents[r].w && s.pool.lease[r] in s.conns
  {
  }

  // Only worker w's connection changes, and no request is added.
  lemma ConnChanges(env: Env, s: State, w: Wid, d: S.Conn)
    requires Core(env, s) && w in s.conns
    requires WorkerOK(env, s.pool.log[w], d) && Grows(s.conns[w], d) && d.begun == s.conns[w].begun
    requires s.conns[w].host.Free? ==> d.host.Free?
    requires s.conns[w].host.Busy? && !s.conns[w].host.req.Shutdown? ==>
               !d.host.Closed? && (d.host.Busy? ==> d.host.req == s.conns[w].host.req)
    ensures Core(env, s.(conns := s.conns[w := d]))
  {
    hide RunOK, WorkerOK, MutexOK;
    var t := s.(conns := s.conns[w := d]);
    forall r <- t.runs ensures RunOK(env, r, t.runs[r], LeasedTo(t, r)) {
      if t.pool.lease[r] == w {
        RunSurvives(env, r, s.runs[r], LeasedTo(s, r), LeasedTo(t, r));
      }
    }
    ConnKeepsMutex(s, w, d);
  }

  lemma ConnKeepsMutex(s: State, w: Wid, d: S.Conn)
    requires MutexOK(s) && w in s.conns
    requires s.conns[w].host.Free? ==> d.host.Free?
    requires s.conns[w].host.Busy? && !s.conns[w].host.req.Shutdown? ==>
               !d.host.Closed? && (d.host.Busy? ==> d.host.req == s.conns[w].host.req)
    ensures MutexOK(s.(conns := s.conns[w := d]))
  {
    var t := s.(conns := s.conns[w := d]);
    forall q <- t.pool.agents ensures TurnOK(t, q, t.pool.agents[q]) {
      assert TurnOK(s, q, s.pool.agents[q]);
    }
  }

  lemma SocketKeepsCore(env: Env, s: State, w: Wid, se: S.Event)
    requires env.Sound() && Core(env, s) && StepSocket(env, s, w, se).Some?
    ensures Core(env, StepSocket(env, s, w, se).value)
  {
    hide RunOK, WorkerOK, TurnOK;
    SocketKeepsWorker(env, s.pool.log[w], s.conns[w], se);
    ConnChanges(env, s, w, S.Next(env.codec, s.conns[w], se).value);
  }

  lemma BridgeKeepsCore(env: Env, s: State, r: RunId, be: B.Event)
    requires Core(env, s) && StepBridge(s, r, be).Some?
    ensures Core(env, StepBridge(s, r, be).value)
  {
    hide RunOK, WorkerOK, TurnOK;
    LeaseIsHand(env, s, r);
    RunFacts(env, s, r);
    BridgeKeepsRun(env, r, s.runs[r], LeasedTo(s, r), be);
    RunChanges(env, s, r, s.runs[r].(bridge := B.Next(s.runs[r].bridge, be).value));
  }

  // ---------------------------------------------------------------- dispatch

  lemma RespondKeepsCore(env: Env, s: State, r: RunId, resp: Response, at: Option<nat>)
    requires env.Sound() && Core(env, s) && Active(s, r) && RespondIn(env, s, r, resp, at).Some?
    requires s.pool.lease[r] in s.conns
    requires var k := LeasedTo(s, r);
             && k.c.host.Free?
             && ExchangeOK(env, r, Exchange(s.runs[r].bridge.goro.body, resp, at), k)
             && match at
                case None => AtsBelow(s.runs[r].hist, |k.l|)
                case Some(n) => n < |k.l| && AtsBelow(s.runs[r].hist, n)
    ensures Core(env, RespondIn(env, s, r, resp, at).value)
  {
    hide RunOK, WorkerOK, ExchangeOK, AtsBelow, TurnOK;
    RunFacts(env, s, r);
    RespondKeepsRun(env, r, s.runs[r], LeasedTo(s, r), resp, at);
    RunChanges(env, s, r, Respond(env, s.runs[r], resp, at).value);
  }

  // Between requests, and with the worker's turn over, the mutex is free.
  lemma HolderFree(env: Env, s: State, r: RunId)
    requires Core(env, s) && Active(s, r) && !s.runs[r].disp.Asked?
    ensures s.conns[s.pool.lease[r]].host.Free?
  {
    assert TurnOK(s, r, s.pool.agents[r]);
  }

  // The worker in Run r's hands.
  function Own(s: State, r: RunId): Leased
    requires Active(s, r) && s.pool.agents[r].w in s.conns && s.pool.agents[r].w in s.pool.log
  {
    Leased(s.conns[s.pool.agents[r].w], s.pool.log[s.pool.agents[r].w])
  }

  predicate HasOwn(s: State, r: RunId) {
    Active(s, r) && s.pool.agents[r].w in s.conns && s.pool.agents[r].w in s.pool.log
  }

  lemma LocalExchange(env: Env, s: State, r: RunId)
    requires Core(env, s) && Dispatching(s, r) && LocalResponse(env, s, r).Some?
    ensures HasOwn(s, r) && Own(s, r).c.host.Free?
    ensures ExchangeOK(env, r, Exchange(s.runs[r].bridge.goro.body, LocalResponse(env, s, r).value, None), Own(s, r))
    ensures AtsBelow(s.runs[r].hist, |Own(s, r).l|)
  {
    hide RunOK, WorkerOK, TurnOK;
    DispFacts(env, s, r);
    HolderFree(env, s, r);
  }

  lemma LocalKeepsCore(env: Env, s: State, r: RunId)
    requires env.Sound() && Core(env, s) && StepLocal(env, s, r).Some?
    ensures Core(env, StepLocal(env, s, r).value)
  {
    hide RunOK, WorkerOK, TurnOK;
    LocalExchange(env, s, r);
    LeaseIsHand(env, s, r);
    RespondKeepsCore(env, s, r, LocalResponse(env, s, r).value, None);
  }

  lemma ClearedRun(env: Env, s: State, r: RunId)
    requires Core(env, s) && Dispatching(s, r) && LocalResponse(env, s, r).None?
    ensures HasOwn(s, r) && Own(s, r).c.host.Free?
    ensures RunOK(env, r, s.runs[r].(disp := Cleared), Own(s, r))
  {
    hide RunOK, WorkerOK, TurnOK;
    DispFacts(env, s, r);
    HolderFree(env, s, r);
    DispChanges(env, s, r, Cleared);
  }

  lemma ClearKeepsCore(env: Env, s: State, r: RunId)
    requires Core(env, s) && StepClear(env, s, r).Some?
    ensures Core(env, StepClear(env, s, r).value)
  {
    hide RunOK, WorkerOK, TurnOK;
    ClearedRun(env, s, r);
    LeaseIsHand(env, s, r);
    RunChanges(env, s, r, s.runs[r].(disp := Cleared));
  }

  lemma ResolveFailsKeepsCore(env: Env, s: State, r: RunId)
    requires env.Sound() && Core(env, s) && StepResolveFails(env, s, r).Some?
    ensures Core(env, StepResolveFails(env, s, r).value)
  {
    hide RunOK, WorkerOK, TurnOK;
    DispFacts(env, s, r);
    HolderFree(env, s, r);
    RespondKeepsCore(env, s, r, Failure(BAD_ARGUMENT), None);
  }

  // A returned request was the Run's latest, and returned what its worker served.
  lemma ReturnedIsOwn(env: Env, s: State, r: RunId)
    requires Core(env, s) && Returned(s, r).Some?
    ensures HasOwn(s, r)
    ensures var d := s.runs[r].disp;
            var k := Own(s, r);
            && k.c.host.Free? && AskedAt(k, r, d.at, d.op) && Returned(s, r).value == k.c.returned[d.at]
            && d.at < |k.l| == |k.c.begun| && OpOf(k.c.begun[d.at]) == d.op && AtsBelow(s.runs[r].hist, d.at)
            && s.runs[r].bridge.goro.Working? && OpFor(env.parse(s.runs[r].bridge.goro.body)) == Some(d.op)
            && (d.op.OpCall? ==> env.allow(r, d.op.func))
            && (k.c.returned[d.at].Some? ==>
                  d.at < |k.c.served| && k.c.served[d.at] == (k.c.begun[d.at], k.c.returned[d.at].value))
  {
    hide RunOK, WorkerOK;
    DispFacts(env, s, r);
    ServedFacts(env, s, s.pool.agents[r].w);
  }

  lemma WorkerFacts(env: Env, s: State, w: Wid)
    requires Core(env, s) && w in s.conns
    ensures w in s.pool.log && WorkerOK(env, s.pool.log[w], s.conns[w])
  {
    hide RunOK, WorkerOK;
  }

  lemma ServedFacts(env: Env, s: State, w: Wid)
    requires Core(env, s) && w in s.conns
    ensures w in s.pool.log && S.Histories(s.conns[w])
    ensures |s.conns[w].begun| == |s.pool.log[w]|
    ensures forall i | 0 <= i < |s.pool.log[w]| :: OpOf(s.conns[w].begun[i]) == s.pool.log[w][i].op
    ensures forall i | 0 <= i < |s.conns[w].served| && s.conns[w].served[i].0.Probe? ::
              InfoOf(s.conns[w].served[i].1) == env.probe(s.conns[w].served[i].0.target)
  {
    hide RunOK;
    WorkerFacts(env, s, w);
  }

  lemma DispFacts(env: Env, s: State, r: RunId)
    requires Core(env, s) && Active(s, r)
    ensures r in s.pool.lease && s.pool.lease[r] == s.pool.agents[r].w && HasOwn(s, r)
    ensures DispOK(env, r, s.runs[r], Own(s, r))
    ensures CacheOK(env, s)
  {
    RunFacts(env, s, r);
    hide HistOK, ExchangesOK, WorkerOK;
  }

  // Moving on with the same request keeps everything but the dispatch state.
  lemma DispChanges(env: Env, s: State, r: RunId, d: Disp)
    requires Core(env, s) && HasOwn(s, r)
    requires DispOK(env, r, s.runs[r].(disp := d), Own(s, r))
    ensures RunOK(env, r, s.runs[r].(disp := d), Own(s, r))
  {
    hide RunOK, WorkerOK, DispOK;
    RunFacts(env, s, r);
    DispSwaps(env, r, s.runs[r], d, Own(s, r));
  }

  lemma DispSwaps(env: Env, r: RunId, rs: RunState, d: Disp, k: Leased)
    requires RunOK(env, r, rs, k) && DispOK(env, r, rs.(disp := d), k)
    ensures RunOK(env, r, rs.(disp := d), k)
  {
    hide B.Inv, ExchangeOK;
  }

  lemma ProbeStored(env: Env, s: State, r: RunId, p: Reply)
    requires Core(env, s) && Returned(s, r) == Some(Some(p)) && s.runs[r].disp.op.OpProbe?
    ensures HasOwn(s, r)
    ensures var d := s.runs[r].disp;
            RunOK(env, r, s.runs[r].(disp := Storing(d.op.target, InfoOf(p), d.at)), Own(s, r))
  {
    hide RunOK, WorkerOK;
    var d := s.runs[r].disp;
    ReturnedIsOwn(env, s, r);
    ServedFacts(env, s, s.pool.agents[r].w);
    assert Own(s, r).c.begun[d.at].Probe?;
    DispChanges(env, s, r, Storing(d.op.target, InfoOf(p), d.at));
  }

  lemma ProbeReturnedKeepsCore(env: Env, s: State, r: RunId)
    requires env.Sound() && Core(env, s) && StepProbeReturned(env, s, r).Some?
    ensures Core(env, StepProbeReturned(env, s, r).value)
  {
    hide RunOK, WorkerOK, TurnOK;
    ReturnedIsOwn(env, s, r);
    LeaseIsHand(env, s, r);
    var d := s.runs[r].disp;
    match Returned(s, r).value
    case None => RespondKeepsCore(env, s, r, Failure(NO_REPLY), Some(d.at));
    case Some(p) =>
      ProbeStored(env, s, r, p);
      RunChanges(env, s, r, s.runs[r].(disp := Storing(d.op.target, InfoOf(p), d.at)));
  }

  lemma CallReturnedKeepsCore(env: Env, s: State, r: RunId, encodeFails: bool)
    requires env.Sound() && Core(env, s) && StepCallReturned(env, s, r, encodeFails).Some?
    ensures Core(env, StepCallReturned(env, s, r, encodeFails).value)
  {
    hide RunOK, WorkerOK, TurnOK;
    ReturnedIsOwn(env, s, r);
    LeaseIsHand(env, s, r);
    RespondKeepsCore(env, s, r, ResponseTo(Returned(s, r).value, encodeFails), Some(s.runs[r].disp.at));
  }

  lemma CacheChanges(env: Env, s: State, t: string)
    requires Core(env, s)
    ensures Core(env, s.(cache := s.cache[t := env.probe(t)]))
  {
    hide RunOK, WorkerOK;
    var u := s.(cache := s.cache[t := env.probe(t)]);
    forall q <- u.pool.agents ensures TurnOK(u, q, u.pool.agents[q]) {
      assert TurnOK(s, q, s.pool.agents[q]);
    }
  }

  lemma ReadyRun(env: Env, s: State, r: RunId)
    requires Core(env, s) && Active(s, r) && s.runs[r].disp.Storing?
    ensures HasOwn(s, r) && Own(s, r).c.host.Free?
    ensures var d := s.runs[r].disp;
            d.info == env.probe(d.target)
            && RunOK(env, r, s.runs[r].(disp := Ready(ProbeAnswer(d.info), d.at)), Own(s, r))
  {
    hide RunOK, WorkerOK, TurnOK;
    DispFacts(env, s, r);
    HolderFree(env, s, r);
    var d := s.runs[r].disp;
    DispChanges(env, s, r, Ready(ProbeAnswer(d.info), d.at));
  }

  lemma StoreKeepsCore(env: Env, s: State, r: RunId)
    requires Core(env, s) && StepStore(s, r).Some?
    ensures Core(env, StepStore(s, r).value)
  {
    hide RunOK, WorkerOK, TurnOK;
    var d := s.runs[r].disp;
    ReadyRun(env, s, r);
    LeaseIsHand(env, s, r);
    CacheChanges(env, s, d.target);
    RunChanges(env, s.(cache := s.cache[d.target := d.info]), r, s.runs[r].(disp := Ready(ProbeAnswer(d.info), d.at)));
  }

  lemma ReadyExchange(env: Env, s: State, r: RunId)
    requires Core(env, s) && Active(s, r) && s.runs[r].disp.Ready?
    ensures HasOwn(s, r) && Own(s, r).c.host.Free? && s.runs[r].bridge.goro.Working?
    ensures var d := s.runs[r].disp;
            && ExchangeOK(env, r, Exchange(s.runs[r].bridge.goro.body, d.resp, Some(d.at)), Own(s, r))
            && d.at < |Own(s, r).l| && AtsBelow(s.runs[r].hist, d.at)
  {
    hide RunOK, WorkerOK, TurnOK;
    DispFacts(env, s, r);
    HolderFree(env, s, r);
  }

  lemma SendProbeKeepsCore(env: Env, s: State, r: RunId)
    requires env.Sound() && Core(env, s) && StepSendProbe(env, s, r).Some?
    ensures Core(env, StepSendProbe(env, s, r).value)
  {
    hide RunOK, WorkerOK, TurnOK;
    ReadyExchange(env, s, r);
    LeaseIsHand(env, s, r);
    RespondKeepsCore(env, s, r, s.runs[r].disp.resp, Some(s.runs[r].disp.at));
  }
}
