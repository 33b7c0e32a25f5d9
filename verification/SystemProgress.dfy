/** No deadlock in the whole system: a shim that waits is never left waiting, nor
    a Run whose module has exited, whatever the other Runs do. */
module SystemProgress {
  import opened Framing
  import opened Messages
  import opened System
  import opened SystemInv
  import opened SystemSteps
  import B = Bridge
  import BR = BridgeRuns
  import S = Socket
  import SR = SocketRuns
  import P = Pool
  import PL = PoolLogs

  // The module has exited, at whatever step, and main has not joined the goroutine.
  ghost predicate Draining(b: B.State) {
    B.Inv(b) && !b.main.InModule? && !b.main.Joined?
  }

  // Run r's user code is inside a bridge call, every frame so far 1 byte to 8 MiB,
  // or the Run is winding up.
  ghost predicate Waiting(env: Env, s: State, r: RunId) {
    Inv(env, s) && Active(s, r) && (BR.InCall(s.runs[r].bridge) || Draining(s.runs[r].bridge))
  }

  // What a worker could say to each request.
  ghost predicate Answerer(env: Env, answer: Request -> Reply) {
    forall q :: Answers(q, answer(q)) && |env.codec.encRep(answer(q))| <= SOCKET_LIMIT
                && (q.Probe? ==> ProbeInfo(answer(q).isModule, answer(q).isCallable) == env.probe(q.target))
  }

  // The response's payload is of the host's making or came in a reply that fits.
  ghost predicate Carried(env: Env, p: Response) {
    match p
    case Ack => true
    case ProbeAnswer(_) => true
    case Failure(text) =>
      || text in {NOT_ALLOWED, BAD_REQUEST, BAD_ARGUMENT, BAD_RESULT, NO_REPLY}
      || exists id :: |env.codec.encRep(Error(id, text))| <= SOCKET_LIMIT
    case Value(v) => v == [] || exists id :: |env.codec.encRep(Result(id, v))| <= SOCKET_LIMIT
  }

  // The JSON texts of such responses, and of the requests that frames of at most
  // 8 MiB lead to, have lengths that fit the 4-byte headers.
  ghost predicate ShortTexts(env: Env) {
    && (forall body, id | B.InRange(body) && OpFor(env.parse(body)).Some? ::
          |env.codec.encReq(RequestOf(OpFor(env.parse(body)).value, id))| < U32)
    && (forall p | Carried(env, p) :: |env.encResp(p)| < U32)
  }

  // Steps that carry Run r's open call forward, by its shim, its goroutine or the
  // worker it leases while that has a request open.
  predicate Helps(s: State, r: RunId, e: Event) {
    match e
    case BridgeStep(q, be) => q == r && !be.Exit?
    case AnswerLocally(q) => q == r
    case Clear(q) => q == r
    case ResolveFails(q) => q == r
    case Ask(q) => q == r
    case ProbeReturned(q) => q == r
    case Store(q) => q == r
    case SendProbe(q) => q == r
    case CallReturned(q, _) => q == r
    case SocketStep(w, _) => r in s.pool.lease && s.pool.lease[r] == w && w in s.conns && s.conns[w].host.Busy?
    case _ => false
  }

  // ---------------------------------------------------------------- somebody can move

  // Run r's state, its dispatch, and the connection of the worker it holds.
  lemma WaitingFacts(env: Env, s: State, r: RunId)
    requires Waiting(env, s, r)
    ensures Core(env, s) && HasOwn(s, r) && r in s.pool.lease && s.pool.lease[r] == s.pool.agents[r].w
    ensures DispOK(env, r, s.runs[r], SystemSteps.Own(s, r))
    ensures var k := SystemSteps.Own(s, r);
            && S.Fits(env.codec, k.c) && S.Histories(k.c) && S.Lockstep(env.codec, k.c) && |k.c.begun| == |k.l|
            && (if s.runs[r].disp.Asked? then !k.c.host.Closed? else k.c.host.Free?)
  {
    hide Core, PL.Inv, BR.InCall, Draining, DispOK;
    DispFacts(env, s, r);
    ConnFacts(env, s, r);
  }

  lemma ConnFacts(env: Env, s: State, r: RunId)
    requires Core(env, s) && HasOwn(s, r)
    ensures var k := SystemSteps.Own(s, r);
            && S.Fits(env.codec, k.c) && S.Histories(k.c) && S.Lockstep(env.codec, k.c) && |k.c.begun| == |k.l|
            && (if s.runs[r].disp.Asked? then !k.c.host.Closed? else k.c.host.Free?)
  {
    WorkerFacts(env, s, s.pool.agents[r].w);
    TurnFacts(env, s, r);
    hide Core, S.Fits, S.Histories, S.Lockstep;
  }

  lemma TurnFacts(env: Env, s: State, r: RunId)
    requires Core(env, s) && Active(s, r)
    ensures s.pool.agents[r].w in s.conns
    ensures var c := s.conns[s.pool.agents[r].w];
            if s.runs[r].disp.Asked? then !c.host.Closed? else c.host.Free?
  {
    hide WorkersOK, RunsOK;
    assert TurnOK(s, r, s.pool.agents[r]);
  }

  // In every reachable state in which a shim waits or a Run winds up, that Run has
  // a step to take: shim, goroutine, main and worker never wait for each other in
  // a circle, nor for another Run.
  lemma Progress(env: Env, s: State, r: RunId, answer: Request -> Reply) returns (e: Event)
    requires env.Sound() && ShortTexts(env) && Answerer(env, answer) && Waiting(env, s, r)
    ensures Next(env, s, e).Some? && Helps(s, r, e)
  {
    hide Inv, Core, BR.InCall, Draining, Answerer, ShortTexts, Env.Sound, Next, Helps, DispOK, S.Fits, S.Histories,
         S.Lockstep;
    if !s.runs[r].bridge.goro.Working? {
      e := BridgeProgress(env, s, r);
    } else {
      match s.runs[r].disp
      case Cleared => e := AskProgress(env, s, r);
      case Asked(_, _) => e := AskedProgress(env, s, r, answer);
      case _ =>
        WaitingFacts(env, s, r);
        ReadyIsProbe(env, r, s.runs[r], SystemSteps.Own(s, r));
        e := LocalProgress(env, s, r);
    }
  }

  lemma ReadyIsProbe(env: Env, r: RunId, rs: RunState, k: Leased)
    requires DispOK(env, r, rs, k)
    ensures rs.disp.Ready? ==> rs.disp.resp.ProbeAnswer?
  {
    hide AtsBelow;
  }

  lemma LocalProgress(env: Env, s: State, r: RunId) returns (e: Event)
    requires env.Sound() && ShortTexts(env) && Active(s, r) && s.runs[r].bridge.goro.Working?
    requires !s.runs[r].disp.Cleared? && !s.runs[r].disp.Asked?
    requires s.runs[r].disp.Ready? ==> s.runs[r].disp.resp.ProbeAnswer?
    ensures Next(env, s, e).Some? && Helps(s, r, e)
  {
    match s.runs[r].disp
    case Idle =>
      if LocalResponse(env, s, r).Some? {
        Responds(env, s, r, LocalResponse(env, s, r).value);
        hide RespondIn;
        e := AnswerLocally(r);
      } else {
        e := Clear(r);
      }
    case Storing(_, _, _) => e := Store(r);
    case Ready(_, _) =>
      Responds(env, s, r, s.runs[r].disp.resp);
      hide RespondIn;
      e := SendProbe(r);
  }

  // A goroutine at work can always start to answer.
  lemma Responds(env: Env, s: State, r: RunId, resp: Response)
    requires env.Sound() && ShortTexts(env) && r in s.runs && s.runs[r].bridge.goro.Working? && Carried(env, resp)
    ensures forall at :: RespondIn(env, s, r, resp, at).Some?
  {
  }

  lemma BridgeProgress(env: Env, s: State, r: RunId) returns (e: Event)
    requires Waiting(env, s, r) && !s.runs[r].bridge.goro.Working?
    ensures Next(env, s, e).Some? && Helps(s, r, e)
  {
    hide Inv, BR.InCall;
    var b, be := s.runs[r].bridge, B.Join;
    if BR.InCall(b) {
      be := BR.CallProgress(b, [0]);
    } else {
      be := BR.DrainProgress(b, [0]);
    }
    OnlyWorkersAnswer(b, be);
    hide B.Next;
    e := BridgeStep(r, be);
  }

  lemma OnlyWorkersAnswer(b: B.State, be: B.Event)
    requires B.Next(b, be).Some? && !b.goro.Working?
    ensures !be.Answer? && (be.Exit? ==> b.main.InModule?)
  {
  }

  lemma AskProgress(env: Env, s: State, r: RunId) returns (e: Event)
    requires env.Sound() && ShortTexts(env) && Waiting(env, s, r)
    requires s.runs[r].bridge.goro.Working? && s.runs[r].disp.Cleared?
    ensures Next(env, s, e).Some? && Helps(s, r, e)
  {
    hide Inv, Core, BR.InCall, Draining, S.Fits, S.Histories, S.Lockstep, AtsBelow;
    WaitingFacts(env, s, r);
    IssuedToHolder(env, s, r);
    WorkingInRange(env, s, r);
    e := Ask(r);
  }

  lemma WorkingInRange(env: Env, s: State, r: RunId)
    requires Waiting(env, s, r) && s.runs[r].bridge.goro.Working?
    ensures B.InRange(s.runs[r].bridge.goro.body)
  {
    hide Inv;
  }

  lemma IssuedToHolder(env: Env, s: State, r: RunId)
    requires Waiting(env, s, r)
    ensures r in s.pool.issued
  {
    hide Core, BR.InCall, Draining, PL.LogsFormed, PL.LogsOwned, PL.StopsMatch, P.Owned;
  }

  lemma AskedProgress(env: Env, s: State, r: RunId, answer: Request -> Reply) returns (e: Event)
    requires env.Sound() && ShortTexts(env) && Answerer(env, answer) && Waiting(env, s, r)
    requires s.runs[r].bridge.goro.Working? && s.runs[r].disp.Asked?
    ensures Next(env, s, e).Some? && Helps(s, r, e)
  {
    hide Waiting, Core, Answerer, ShortTexts, Env.Sound, S.Fits, S.Lockstep, S.Histories, DispOK, Next, Helps, Returned;
    WaitingFacts(env, s, r);
    var w := s.pool.agents[r].w;
    AskedIsLatest(env, s, r);
    ReturnedFits(env, s, r);
    if s.conns[w].host.Busy? {
      var se := BusyProgress(env, s.conns[w], answer);
      e := SocketStep(w, se);
      SocketMoves(env, s, r, se);
    } else {
      e := ReturnedProgress(env, s, r);
    }
  }

  // The Run's request is the latest its worker was sent; it has returned unless
  // the connection is busy with it.
  lemma AskedIsLatest(env: Env, s: State, r: RunId)
    requires HasOwn(s, r) && DispOK(env, r, s.runs[r], SystemSteps.Own(s, r)) && s.runs[r].disp.Asked?
    requires S.Histories(SystemSteps.Own(s, r).c) && |SystemSteps.Own(s, r).c.begun| == |SystemSteps.Own(s, r).l|
    requires !SystemSteps.Own(s, r).c.host.Closed?
    ensures Numbered(s.runs[r].disp.op)
    ensures SystemSteps.Own(s, r).c.host.Busy? || Returned(s, r).Some?
  {
    hide AtsBelow;
  }

  lemma SocketMoves(env: Env, s: State, r: RunId, se: S.Event)
    requires HasOwn(s, r) && r in s.pool.lease && s.pool.lease[r] == s.pool.agents[r].w
    requires var c := SystemSteps.Own(s, r).c;
             c.host.Busy? && S.Next(env.codec, c, se).Some? && !se.Lock? && ReplyAllowed(env, c, se)
    ensures Next(env, s, SocketStep(s.pool.agents[r].w, se)).Some? && Helps(s, r, SocketStep(s.pool.agents[r].w, se))
  {
    hide S.Next, ReplyAllowed;
  }

  lemma BusyProgress(env: Env, c: S.Conn, answer: Request -> Reply) returns (se: S.Event)
    requires env.Sound() && Answerer(env, answer) && c.host.Busy?
    requires S.Fits(env.codec, c) && S.Histories(c) && S.Lockstep(env.codec, c)
    ensures S.Next(env.codec, c, se).Some? && !se.Lock? && ReplyAllowed(env, c, se)
  {
    hide S.Fits, S.Histories, S.Lockstep;
    var q := if c.py.Executing? then c.py.req else Ping;
    assert Answers(q, answer(q));
    se := SR.RequestProgress(env.codec, c, answer(q));
    BusyNotLocked(env, c, se);
  }

  lemma ReturnedProgress(env: Env, s: State, r: RunId) returns (e: Event)
    requires env.Sound() && ShortTexts(env) && Active(s, r) && s.runs[r].bridge.goro.Working?
    requires Returned(s, r).Some? && Numbered(s.runs[r].disp.op)
    requires Returned(s, r).value.Some? ==> |env.codec.encRep(Returned(s, r).value.value)| <= SOCKET_LIMIT
    ensures Next(env, s, e).Some? && Helps(s, r, e)
  {
    var resp := ResponseTo(Returned(s, r).value, false);
    assert Carried(env, resp);
    Responds(env, s, r, resp);
    Responds(env, s, r, Failure(NO_REPLY));
    hide RespondIn, Returned;
    e := if s.runs[r].disp.op.OpProbe? then ProbeReturned(r) else CallReturned(r, false);
  }

  // What came back fits.
  lemma ReturnedFits(env: Env, s: State, r: RunId)
    requires HasOwn(s, r) && S.Histories(SystemSteps.Own(s, r).c) && S.Fits(env.codec, SystemSteps.Own(s, r).c)
    ensures Returned(s, r).Some? && Returned(s, r).value.Some? ==>
              |env.codec.encRep(Returned(s, r).value.value)| <= SOCKET_LIMIT
  {
  }

  lemma BusyNotLocked(env: Env, c: S.Conn, se: S.Event)
    requires c.host.Busy? && S.Next(env.codec, c, se).Some?
    ensures !se.Lock?
  {
  }
}
