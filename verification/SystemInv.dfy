/** The inductive invariant of the whole system. */
module SystemInv {
  import opened Framing
  import opened Wrappers
  import opened Messages
  import opened System
  import B = Bridge
  import S = Socket
  import P = Pool
  import PL = PoolLogs

  function OpOf(q: Request): Op {
    match q
    case Ping => OpPing
    case Shutdown => OpShutdown
    case Probe(_, t) => OpProbe(t)
    case Call(_, f, a) => OpCall(f, a)
  }

  // ---------------------------------------------------------------- workers

  // What a worker's connection was asked is what the pool's log says of it, every
  // call in the log passed the filter of its Run, and probes have the fixed answer.
  ghost predicate WorkerOK(env: Env, l: seq<P.Use>, c: S.Conn) {
    && S.Fits(env.codec, c) && S.Histories(c) && S.Lockstep(env.codec, c) && S.Explained(env.codec, c)
    && |c.begun| == |l|
    && (forall i | 0 <= i < |l| :: OpOf(c.begun[i]) == l[i].op)
    && (forall i | 0 <= i < |l| && l[i].op.OpCall? :: l[i].who.ByRun? && env.allow(l[i].who.r, l[i].op.func))
    && (forall i | 0 <= i < |c.served| && c.served[i].0.Probe? ::
          InfoOf(c.served[i].1) == env.probe(c.served[i].0.target))
  }

  // A worker's histories only grow.
  ghost predicate Grows(c: S.Conn, d: S.Conn) {
    c.begun <= d.begun && c.returned <= d.returned && c.served <= d.served
  }

  // ---------------------------------------------------------------- Runs

  // The leased worker: its connection and the pool's log of it.
  datatype Leased = Leased(c: S.Conn, l: seq<P.Use>)

  // Request `at` of the leased worker was op, asked by Run r, and it has returned.
  ghost predicate AskedAt(k: Leased, r: RunId, at: nat, op: Op) {
    at < |k.c.returned| && at < |k.l| && k.l[at] == P.Use(P.ByRun(r), op)
  }

  // The exchange is what dispatch promises of it, k being the leased worker.
  ghost predicate ExchangeOK(env: Env, r: RunId, x: Exchange, k: Leased) {
    match env.parse(x.body)
    case Sentinel(_) => x.resp == Ack && x.at.None?
    case Malformed => x.resp == Failure(BAD_REQUEST) && x.at.None?
    case ProbeOf(t) =>
      && (x.resp == ProbeAnswer(env.probe(t)) || (x.resp == Failure(NO_REPLY) && x.at.Some?))
      && (x.at.Some? ==> AskedAt(k, r, x.at.value, OpProbe(t)))
      && (x.at.Some? ==> (x.resp.Failure? <==> k.c.returned[x.at.value] == None))
    case CallOf(f, a) =>
      if !env.allow(r, f) then x.resp == Failure(NOT_ALLOWED) && x.at.None?
      else match x.at
           case None => x.resp == Failure(BAD_ARGUMENT)
           case Some(at) =>
             && AskedAt(k, r, at, OpCall(f, a))
             && (x.resp == ResponseTo(k.c.returned[at], false) || x.resp == ResponseTo(k.c.returned[at], true))
  }

  // The payloads of the sentinels among the frames, one after the other.
  function TextsOf(env: Env, bodies: seq<bytes>): string {
    if bodies == [] then ""
    else
      var init, p := bodies[..|bodies| - 1], env.parse(bodies[|bodies| - 1]);
      if p.Sentinel? then TextsOf(env, init) + p.text else TextsOf(env, init)
  }

  // The exchanges are the bridge's frames and answers.
  ghost predicate Recorded(env: Env, rs: RunState) {
    && |rs.bridge.processed| == |rs.bridge.answers|
    && |rs.hist| == |rs.bridge.answers|
    && (forall i | 0 <= i < |rs.hist| ::
          rs.hist[i].body == rs.bridge.processed[i] && env.encResp(rs.hist[i].resp) == rs.bridge.answers[i])
    && rs.stdout == TextsOf(env, rs.bridge.processed)
  }

  ghost predicate HistOK(env: Env, rs: RunState) {
    B.Inv(rs.bridge) && Recorded(env, rs)
  }

  ghost predicate AtsBelow(hist: seq<Exchange>, n: nat) {
    && (forall i | 0 <= i < |hist| && hist[i].at.Some? :: hist[i].at.value < n)
    && (forall i, j | 0 <= i < j < |hist| && hist[i].at.Some? && hist[j].at.Some? ::
          hist[i].at.value < hist[j].at.value)
  }

  ghost predicate ExchangesOK(env: Env, r: RunId, rs: RunState, k: Leased) {
    forall i | 0 <= i < |rs.hist| :: ExchangeOK(env, r, rs.hist[i], k)
  }

  // The request being dispatched.
  ghost predicate DispOK(env: Env, r: RunId, rs: RunState, k: Leased) {
    if rs.disp.Idle? then AtsBelow(rs.hist, |k.l|)
    else
      && rs.bridge.goro.Working?
      && var p := env.parse(rs.bridge.goro.body);
      match rs.disp
      case Cleared =>
        && AtsBelow(rs.hist, |k.l|)
        && (p.ProbeOf? || (p.CallOf? && env.allow(r, p.func)))
      case Asked(op, at) =>
        && AtsBelow(rs.hist, at) && at + 1 == |k.l|
        && OpFor(p) == Some(op) && k.l[at] == P.Use(P.ByRun(r), op)
        && (p.CallOf? ==> env.allow(r, p.func))
      case Storing(t, info, at) =>
        && AtsBelow(rs.hist, at) && p == ProbeOf(t) && AskedAt(k, r, at, OpProbe(t)) && info == env.probe(t)
        && k.c.returned[at].Some?
      case Ready(resp, at) =>
        && AtsBelow(rs.hist, at) && p.ProbeOf? && AskedAt(k, r, at, OpProbe(p.target))
        && k.c.returned[at].Some? && resp == ProbeAnswer(env.probe(p.target))
  }

  ghost predicate RunOK(env: Env, r: RunId, rs: RunState, k: Leased) {
    HistOK(env, rs) && ExchangesOK(env, r, rs, k) && DispOK(env, r, rs, k)
  }

  // ---------------------------------------------------------------- mutexes

  // Whose turn it is on a worker's connection, from the holder's state.
  ghost predicate TurnOK(s: State, r: RunId, a: P.Agent) {
    match P.WorkerOf(a)
    case None => true
    case Some(w) =>
      && w in s.conns
      && (match a
          case Pinging(_) => !s.conns[w].host.Closed? && (s.conns[w].host.Busy? ==> !s.conns[w].host.req.Shutdown?)
          case Stopping(_, _) => true
          case Holding(_) =>
            && r in s.runs
            && (if s.runs[r].disp.Asked?
                then !s.conns[w].host.Closed? && (s.conns[w].host.Busy? ==> !s.conns[w].host.req.Shutdown?)
                else s.conns[w].host.Free?)
          case _ => s.conns[w].host.Free?)
  }

  ghost predicate MutexOK(s: State) {
    && (forall r <- s.pool.agents :: TurnOK(s, r, s.pool.agents[r]))
    && (forall w <- s.pool.queue :: w in s.conns && s.conns[w].host.Free?)
    && (s.pool.closer.CloserHas? ==> s.pool.closer.w in s.conns && s.conns[s.pool.closer.w].host.Free?)
  }

  predicate Keyed(s: State) {
    && s.conns.Keys == s.pool.log.Keys
    && s.runs.Keys == s.pool.lease.Keys
    && (forall r <- s.runs :: r in s.pool.agents && (s.pool.agents[r].Holding? || s.runs[r].disp.Idle?))
  }

  ghost predicate CacheOK(env: Env, s: State) {
    forall t <- s.cache :: s.cache[t] == env.probe(t)
  }

  ghost predicate WorkersOK(env: Env, s: State)
    requires Keyed(s)
  {
    forall w <- s.conns :: WorkerOK(env, s.pool.log[w], s.conns[w])
  }

  ghost predicate RunsOK(env: Env, s: State)
    requires Keyed(s)
  {
    forall r <- s.runs :: s.pool.lease[r] in s.conns && RunOK(env, r, s.runs[r], LeasedTo(s, r))
  }

  function LeasedTo(s: State, r: RunId): Leased
    requires Keyed(s) && r in s.runs && s.pool.lease[r] in s.conns
  {
    Leased(s.conns[s.pool.lease[r]], s.pool.log[s.pool.lease[r]])
  }

  // A Run that holds a worker holds the one Acquire gave it.
  ghost predicate LeaseOK(s: State) {
    forall r | r in s.pool.agents && s.pool.agents[r].Holding? ::
      r in s.pool.lease && s.pool.lease[r] == s.pool.agents[r].w
  }

  // Everything but the pool's own invariant.
  ghost predicate Core(env: Env, s: State) {
    Keyed(s) && WorkersOK(env, s) && RunsOK(env, s) && LeaseOK(s) && MutexOK(s) && CacheOK(env, s)
  }

  ghost predicate Inv(env: Env, s: State) {
    PL.Inv(s.pool) && Core(env, s)
  }

  lemma InvInitial(env: Env, s: State)
    requires Initial(s)
    ensures Inv(env, s)
  {
    PL.InvInitial(s.pool);
    FreshWorker(env);
    hide PL.Inv, P.Distinct, WorkerOK;
  }

  lemma FreshWorker(env: Env)
    ensures WorkerOK(env, [], S.FRESH)
  {
  }
}
