/** The whole request/worker system: any number of Runs, each with its shim,
    bridge goroutine and pipes, sharing the pool's workers over their sockets,
    and the probe cache shared by all Runs. Its steps are steps of Bridge.dfy,
    Pool.dfy and Socket.dfy, taken together where the code does both at once.

    Hypotheses built into the steps: worker replies are at most 16 MiB, probing
    is a fixed function of the target, and the JSON texts fit 32-bit lengths. */
module System {
  import opened Framing
  import opened Wrappers
  import opened Messages
  import B = Bridge
  import S = Socket
  import P = Pool

  type RunId = P.RunId
  type Wid = P.Wid

  // What a frame from the shim asks for.
  datatype Parsed =
    | Sentinel(text: string)
    | Malformed
    | ProbeOf(target: string)
    | CallOf(func: string, args: bytes)

  datatype Response =
    | Ack
    | Failure(text: string)
    | ProbeAnswer(info: ProbeInfo)
    | Value(value: bytes)

  datatype Env = Env(
    codec: Codec,
    parse: bytes -> Parsed,
    encResp: Response -> bytes,
    allow: (RunId, string) -> bool,        // the filter of each Run
    probe: string -> ProbeInfo             // what any worker says of a target
  )
  {
    ghost predicate Sound() {
      codec.Sound() && forall p :: |encResp(p)| >= 1
    }
  }

  const NOT_ALLOWED := "not allowed by filter profile"
  const BAD_REQUEST := "bad request"
  const BAD_ARGUMENT := "argument could not be resolved"
  const BAD_RESULT := "result array could not be read"
  const NO_REPLY := "worker did not reply"

  // Where dispatch is with the current request. `at` numbers the request among
  // those the Run's worker has been sent.
  datatype Disp =
    | Idle
    | Cleared                              // not answered locally: the worker's turn
    | Asked(op: Op, at: nat)
    | Storing(target: string, info: ProbeInfo, at: nat)
    | Ready(resp: Response, at: nat)

  // A finished request: its frame, its response, and the worker request behind it.
  datatype Exchange = Exchange(body: bytes, resp: Response, at: Option<nat>)

  datatype RunState = RunState(bridge: B.State, disp: Disp, stdout: string, hist: seq<Exchange>)

  const RUN_INIT := RunState(B.INIT, Idle, "", [])

  datatype State = State(
    pool: P.State,
    conns: map<Wid, S.Conn>,
    runs: map<RunId, RunState>,
    cache: map<string, ProbeInfo>
  )

  datatype Event =
    | PoolStep(pe: P.Event)                // pool steps that touch no socket
    | StartPing(r: RunId)
    | PingDone(r: RunId)
    | StartStop(r: RunId)
    | StopDone(r: RunId)
    | CloserStartStop
    | CloserStopDone
    | Spawned(r: RunId, w: Wid)
    | SocketStep(w: Wid, se: S.Event)
    | BridgeStep(r: RunId, be: B.Event)
    | AnswerLocally(r: RunId)              // sentinel, bad request, filter, cache hit
    | Clear(r: RunId)                      // filter passed, or cache missed
    | ResolveFails(r: RunId)
    | Ask(r: RunId)                        // probe or call the worker
    | ProbeReturned(r: RunId)
    | Store(r: RunId)
    | SendProbe(r: RunId)
    | CallReturned(r: RunId, encodeFails: bool)
    | Finish(r: RunId)                     // Run returns and releases its worker

  // ---------------------------------------------------------------- steps

  predicate TouchesNoSocket(e: P.Event) {
    e.Arrive? || e.Cancel? || e.Take? || e.CheckRelease? || e.Put? || e.SpawnFails?
    || e.SetFlag? || e.CloseChan? || e.Drain? || e.CloseReturns?
  }

  function StepPool(s: State, pe: P.Event): Option<State> {
    if !TouchesNoSocket(pe) then None
    else match P.Next(s.pool, pe)
         case Some(p) => Some(s.(pool := p))
         case None => None
  }

  // Some party locks worker w's mutex and starts sending op; p is the pool after it.
  function StepLock(env: Env, s: State, p: Option<P.State>, w: Option<Wid>, op: Op): Option<State> {
    if p.None? || w.None? || w.value !in s.conns then None
    else match S.Locked(env.codec, s.conns[w.value], op)
         case Some(c) => Some(s.(pool := p.value, conns := s.conns[w.value := c]))
         case None => None
  }

  function HandOf(s: State, r: RunId): Option<Wid> {
    if r in s.pool.agents then P.WorkerOf(s.pool.agents[r]) else None
  }

  // Ping returned: nil exactly when the reply is a pong.
  function StepPingDone(s: State, r: RunId): Option<State> {
    match HandOf(s, r)
    case None => None
    case Some(w) =>
      if w !in s.conns || !s.conns[w].host.Free? || s.conns[w].returned == [] then None
      else
        var ok := s.conns[w].returned[|s.conns[w].returned| - 1] == Some(Pong);
        match if ok then P.StepPingOk(s.pool, r) else P.StepPingBad(s.pool, r)
        case None => None
        case Some(p) => Some(s.(pool := p, runs := if ok then s.runs[r := RUN_INIT] else s.runs))
  }

  // Shutdown returned; p is the pool after it.
  function StepStopDone(s: State, w: Option<Wid>, p: Option<P.State>): Option<State> {
    if p.None? || w.None? || w.value !in s.conns || !s.conns[w.value].host.Closed? then None
    else Some(s.(pool := p.value))
  }

  function StepSpawned(s: State, r: RunId, w: Wid): Option<State> {
    match P.StepSpawnOk(s.pool, r, w)
    case Some(p) => Some(s.(pool := p, conns := s.conns[w := S.FRESH], runs := s.runs[r := RUN_INIT]))
    case None => None
  }

  // The hypotheses on what workers reply.
  predicate ReplyAllowed(env: Env, c: S.Conn, e: S.Event) {
    e.PyReply? && c.py.Executing? ==>
      && |env.codec.encRep(e.reply)| <= SOCKET_LIMIT
      && (c.py.req.Probe? && e.reply.ProbeResult? ==>
            ProbeInfo(e.reply.isModule, e.reply.isCallable) == env.probe(c.py.req.target))
  }

  function StepSocket(env: Env, s: State, w: Wid, se: S.Event): Option<State> {
    if se.Lock? || w !in s.conns || !ReplyAllowed(env, s.conns[w], se) then None
    else match S.Next(env.codec, s.conns[w], se)
         case Some(c) => Some(s.(conns := s.conns[w := c]))
         case None => None
  }

  predicate Active(s: State, r: RunId) {
    r in s.pool.agents && s.pool.agents[r].Holding? && r in s.runs
  }

  function StepBridge(s: State, r: RunId, be: B.Event): Option<State> {
    if be.Answer? || !Active(s, r) then None
    else match B.Next(s.runs[r].bridge, be)
         case Some(b) => Some(s.(runs := s.runs[r := s.runs[r].(bridge := b)]))
         case None => None
  }

  // sendBridgeResponse: the goroutine starts sending resp.
  function Respond(env: Env, rs: RunState, resp: Response, at: Option<nat>): Option<RunState> {
    if !rs.bridge.goro.Working? then None
    else match B.StepAnswer(rs.bridge, env.encResp(resp))
         case None => None
         case Some(b) =>
           var body := rs.bridge.goro.body;
           Some(rs.(bridge := b, disp := Idle, hist := rs.hist + [Exchange(body, resp, at)],
                    stdout := rs.stdout + TextOf(env, body)))
  }

  function TextOf(env: Env, body: bytes): string {
    match env.parse(body)
    case Sentinel(t) => t
    case _ => ""
  }

  function RespondIn(env: Env, s: State, r: RunId, resp: Response, at: Option<nat>): Option<State>
    requires r in s.runs
  {
    match Respond(env, s.runs[r], resp, at)
    case Some(rs) => Some(s.(runs := s.runs[r := rs]))
    case None => None
  }

  predicate Dispatching(s: State, r: RunId) {
    Active(s, r) && s.runs[r].bridge.goro.Working? && s.runs[r].disp.Idle?
  }

  // The response that needs no worker, if the request has one.
  function LocalResponse(env: Env, s: State, r: RunId): Option<Response>
    requires Dispatching(s, r)
  {
    match env.parse(s.runs[r].bridge.goro.body)
    case Sentinel(_) => Some(Ack)
    case Malformed => Some(Failure(BAD_REQUEST))
    case ProbeOf(t) => if t in s.cache then Some(ProbeAnswer(s.cache[t])) else None
    case CallOf(f, _) => if env.allow(r, f) then None else Some(Failure(NOT_ALLOWED))
  }

  function StepLocal(env: Env, s: State, r: RunId): Option<State> {
    if !Dispatching(s, r) then None
    else match LocalResponse(env, s, r)
         case Some(resp) => RespondIn(env, s, r, resp, None)
         case None => None
  }

  // The lookup in the cache and the probe that follows a miss are two steps:
  // another Run may store the same target in between.
  function StepClear(env: Env, s: State, r: RunId): Option<State> {
    if !Dispatching(s, r) || LocalResponse(env, s, r).Some? then None
    else Some(s.(runs := s.runs[r := s.runs[r].(disp := Cleared)]))
  }

  predicate Asking(s: State, r: RunId) {
    Active(s, r) && s.runs[r].bridge.goro.Working? && s.runs[r].disp.Cleared?
  }

  // A decode or allocation failure among the arguments of an allowed call.
  function StepResolveFails(env: Env, s: State, r: RunId): Option<State> {
    if Asking(s, r) && env.parse(s.runs[r].bridge.goro.body).CallOf?
    then RespondIn(env, s, r, Failure(BAD_ARGUMENT), None)
    else None
  }

  function OpFor(p: Parsed): Option<Op> {
    match p
    case ProbeOf(t) => Some(OpProbe(t))
    case CallOf(f, a) => Some(OpCall(f, a))
    case _ => None
  }

  function StepAsk(env: Env, s: State, r: RunId): Option<State> {
    if !Asking(s, r) then None
    else
      var w := s.pool.agents[r].w;
      match OpFor(env.parse(s.runs[r].bridge.goro.body))
      case None => None
      case Some(op) =>
        if w !in s.conns then None
        else match StepLock(env, s, P.StepAsk(s.pool, r, op), Some(w), op)
             case None => None
             case Some(t) =>
               Some(t.(runs := s.runs[r := s.runs[r].(disp := Asked(op, |s.conns[w].begun|))]))
  }

  // The worker request the Run waits for has returned.
  function Returned(s: State, r: RunId): Option<Option<Reply>> {
    if !Active(s, r) || !s.runs[r].disp.Asked? || s.pool.agents[r].w !in s.conns then None
    else
      var c := s.conns[s.pool.agents[r].w];
      if c.host.Free? && s.runs[r].disp.at < |c.returned| then Some(c.returned[s.runs[r].disp.at]) else None
  }

  // The fields of the reply message, absent ones false.
  function InfoOf(p: Reply): ProbeInfo {
    match p
    case ProbeResult(_, m, c) => ProbeInfo(m, c)
    case _ => ProbeInfo(false, false)
  }

  function StepProbeReturned(env: Env, s: State, r: RunId): Option<State> {
    match Returned(s, r)
    case None => None
    case Some(reply) =>
      var d := s.runs[r].disp;
      if !d.op.OpProbe? then None
      else match reply
           case None => RespondIn(env, s, r, Failure(NO_REPLY), Some(d.at))
           case Some(p) =>
             Some(s.(runs := s.runs[r := s.runs[r].(disp := Storing(d.op.target, InfoOf(p), d.at))]))
  }

  function StepStore(s: State, r: RunId): Option<State> {
    if !Active(s, r) || !s.runs[r].disp.Storing? then None
    else
      var d := s.runs[r].disp;
      Some(s.(cache := s.cache[d.target := d.info],
              runs := s.runs[r := s.runs[r].(disp := Ready(ProbeAnswer(d.info), d.at))]))
  }

  function StepSendProbe(env: Env, s: State, r: RunId): Option<State> {
    if !Active(s, r) || !s.runs[r].disp.Ready? then None
    else RespondIn(env, s, r, s.runs[r].disp.resp, Some(s.runs[r].disp.at))
  }

  // dispatch after Call: error, error reply, array that cannot be encoded, value.
  function ResponseTo(reply: Option<Reply>, encodeFails: bool): Response {
    match reply
    case None => Failure(NO_REPLY)
    case Some(Error(_, text)) => Failure(text)
    case Some(Result(_, v)) => if encodeFails then Failure(BAD_RESULT) else Value(v)
    case Some(_) => Value([])
  }

  function StepCallReturned(env: Env, s: State, r: RunId, encodeFails: bool): Option<State> {
    match Returned(s, r)
    case None => None
    case Some(reply) =>
      if s.runs[r].disp.op.OpCall?
      then RespondIn(env, s, r, ResponseTo(reply, encodeFails), Some(s.runs[r].disp.at))
      else None
  }

  function StepFinish(s: State, r: RunId): Option<State> {
    if !Active(s, r) || !s.runs[r].bridge.main.Joined? then None
    else match P.StepRelease(s.pool, r)
         case Some(p) => Some(s.(pool := p))
         case None => None
  }

  function Next(env: Env, s: State, e: Event): Option<State> {
    match e
    case PoolStep(pe) => StepPool(s, pe)
    case StartPing(r) => StepLock(env, s, P.StepPing(s.pool, r), HandOf(s, r), OpPing)
    case PingDone(r) => StepPingDone(s, r)
    case StartStop(r) => StepLock(env, s, P.StepStopBegin(s.pool, r), HandOf(s, r), OpShutdown)
    case StopDone(r) => StepStopDone(s, HandOf(s, r), P.StepStopEnd(s.pool, r))
    case CloserStartStop => StepLock(env, s, P.StepCloserStop(s.pool), P.CloserWorker(s.pool.closer), OpShutdown)
    case CloserStopDone => StepStopDone(s, P.CloserWorker(s.pool.closer), P.StepCloserStopped(s.pool))
    case Spawned(r, w) => StepSpawned(s, r, w)
    case SocketStep(w, se) => StepSocket(env, s, w, se)
    case BridgeStep(r, be) => StepBridge(s, r, be)
    case AnswerLocally(r) => StepLocal(env, s, r)
    case Clear(r) => StepClear(env, s, r)
    case ResolveFails(r) => StepResolveFails(env, s, r)
    case Ask(r) => StepAsk(env, s, r)
    case ProbeReturned(r) => StepProbeReturned(env, s, r)
    case Store(r) => StepStore(s, r)
    case SendProbe(r) => StepSendProbe(env, s, r)
    case CallReturned(r, f) => StepCallReturned(env, s, r, f)
    case Finish(r) => StepFinish(s, r)
  }

  function Run(env: Env, s: State, es: seq<Event>): Option<State>
    decreases |es|
  {
    if es == [] then Some(s)
    else match Next(env, s, es[0])
         case None => None
         case Some(t) => Run(env, t, es[1..])
  }

  ghost predicate Initial(s: State) {
    && P.Initial(s.pool)
    && s.conns.Keys == s.pool.log.Keys
    && (forall w <- s.conns :: s.conns[w] == S.FRESH)
    && s.runs == map[] && s.cache == map[]
  }
}
