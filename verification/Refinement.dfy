/** The dispatch of one request, as Dispatch.dfy proves it, is one of the ways the
    system of System.dfy has to answer it: the filter, the argument errors and the
    encoding errors that are free choices there are decided here. */
module Refinement {
  import opened Framing
  import opened Wrappers
  import opened Messages
  import opened System
  import opened SystemInv
  import opened SystemSteps
  import opened SystemExchange
  import D = Dispatch
  import F = Filter
  import P = Pool
  import PL = PoolLogs
  import S = Socket
  import T = TopLevel
  import W = Wire

  // The Run's frame is this request, the environment has its filter and workers
  // that answer probes alike; `text` and `argText` are the JSON texts of results
  // and arguments.
  ghost predicate Reads(env: Env, body: bytes, req: D.BridgeRequest, argText: D.BridgeRequest -> bytes) {
    env.parse(body) ==
    if D.IsProbe(req.fn) then ProbeOf(D.Target(req.fn)) else CallOf(req.fn, argText(req))
  }

  ghost predicate Same(env: Env, r: RunId, cfg: F.Config, answers: string -> ProbeInfo) {
    (forall f :: env.allow(r, f) <==> F.Documented(cfg, f)) && (forall t :: env.probe(t) == answers(t))
  }

  // The worker's reply to a call as a message.
  function ReplyTo(id: ReqId, c: D.CallReply, text: Option<W.Arg> -> bytes): Reply {
    match c
    case Raised(t) => Error(id, t)
    case Returned(v) => Result(id, text(v))
  }

  // What the shim is sent, in the system's terms; `reply` is the worker's, if it
  // was called.
  function Seen(resp: D.BridgeResponse, reply: Option<D.CallReply>, text: Option<W.Arg> -> bytes): Response {
    match resp
    case Failure(NotAllowed) => Failure(NOT_ALLOWED)
    case Failure(NoReply) => Failure(NO_REPLY)
    case Failure(WorkerError(t)) => Failure(t)
    case Failure(ReadFailed) => Failure(BAD_RESULT)
    case Failure(_) => Failure(BAD_ARGUMENT)
    case Success(_) => Value(if reply.Some? && reply.value.Returned? then text(reply.value.value) else [])
  }

  // Run r's request has been answered, and no other Run touched.
  ghost predicate Ends(s: State, t: State, r: RunId, resp: Response, at: Option<nat>) {
    && r in s.runs && r in t.runs && s.runs[r].bridge.goro.Working?
    && t.runs[r].hist == s.runs[r].hist + [Exchange(s.runs[r].bridge.goro.body, resp, at)]
    && t.runs[r].disp.Idle?
    && t.runs.Keys == s.runs.Keys && (forall q <- s.runs :: q != r ==> t.runs[q] == s.runs[q])
  }

  lemma Responds(env: Env, s: State, r: RunId, resp: Response, at: Option<nat>) returns (t: State)
    requires env.Sound() && r in s.runs && s.runs[r].bridge.goro.Working?
    ensures RespondIn(env, s, r, resp, at) == Some(t) && Ends(s, t, r, resp, at)
    ensures t.cache == s.cache && t.conns == s.conns && t.pool == s.pool
  {
    t := RespondIn(env, s, r, resp, at).value;
  }

  // ---------------------------------------------------------------- without the worker

  lemma Locally(env: Env, s: State, r: RunId, resp: Response) returns (es: seq<Event>, t: State)
    requires env.Sound() && Dispatching(s, r) && LocalResponse(env, s, r) == Some(resp)
    ensures Run(env, s, es) == Some(t) && Ends(s, t, r, resp, None) && t.cache == s.cache
  {
    t := Responds(env, s, r, resp, None);
    OneMore(env, s, AnswerLocally(r), t);
    es := [AnswerLocally(r)];
  }

  lemma Clears(env: Env, s: State, r: RunId) returns (t: State)
    requires Dispatching(s, r) && LocalResponse(env, s, r).None?
    ensures Next(env, s, Clear(r)) == Some(t) && t == s.(runs := s.runs[r := s.runs[r].(disp := Cleared)])
    ensures Asking(t, r)
  {
    t := s.(runs := s.runs[r := s.runs[r].(disp := Cleared)]);
  }

  lemma ArgumentsFail(env: Env, s: State, r: RunId) returns (es: seq<Event>, t: State)
    requires env.Sound() && Dispatching(s, r) && LocalResponse(env, s, r).None?
    requires env.parse(s.runs[r].bridge.goro.body).CallOf?
    ensures Run(env, s, es) == Some(t) && Ends(s, t, r, Failure(BAD_ARGUMENT), None) && t.cache == s.cache
  {
    var s1 := Clears(env, s, r);
    t := Responds(env, s1, r, Failure(BAD_ARGUMENT), None);
    OneMore(env, s1, ResolveFails(r), t);
    hide LocalResponse, RespondIn;
    Cons(env, s, Clear(r), s1, [ResolveFails(r)]);
    es := [Clear(r)] + [ResolveFails(r)];
  }

  // ---------------------------------------------------------------- with the worker

  function OpOfFrame(env: Env, s: State, r: RunId): Op
    requires Active(s, r) && s.runs[r].bridge.goro.Working? && OpFor(env.parse(s.runs[r].bridge.goro.body)).Some?
  {
    OpFor(env.parse(s.runs[r].bridge.goro.body)).value
  }

  predicate HasQuestion(env: Env, s: State, r: RunId) {
    HasOwn(s, r) && s.runs[r].bridge.goro.Working? && OpFor(env.parse(s.runs[r].bridge.goro.body)).Some?
  }

  // Its number, and what the worker is sent.
  function AskId(s: State, r: RunId): ReqId {
    if HasOwn(s, r) then NextId(Own(s, r).c.seqNo) else 0
  }

  function Question(env: Env, s: State, r: RunId): Request
    requires HasQuestion(env, s, r)
  {
    RequestOf(OpOfFrame(env, s, r), AskId(s, r))
  }

  // The Run may ask its worker: the mutex is free and the request's text fits.
  ghost predicate CanAsk(env: Env, s: State, r: RunId) {
    && HasQuestion(env, s, r) && s.runs[r].disp.Cleared?
    && r in s.pool.issued && Own(s, r).c.host.Free?
    && |env.codec.encReq(Question(env, s, r))| <= SOCKET_LIMIT
  }

  lemma HolderCanAsk(env: Env, s: State, r: RunId)
    requires Inv(env, s) && Active(s, r) && !s.runs[r].disp.Asked?
    ensures HasOwn(s, r) && r in s.pool.issued && Own(s, r).c.host.Free?
  {
    HolderKnown(env, s, r);
    HolderIssued(s.pool, r);
  }

  lemma HolderKnown(env: Env, s: State, r: RunId)
    requires Inv(env, s) && Active(s, r) && !s.runs[r].disp.Asked?
    ensures HasOwn(s, r) && Own(s, r).c.host.Free?
  {
    hide Core, PL.Inv;
    DispFacts(env, s, r);
    HolderFree(env, s, r);
  }

  lemma HolderIssued(p: P.State, r: RunId)
    requires PL.Inv(p) && r in p.agents && p.agents[r].Holding?
    ensures r in p.issued
  {
    hide P.Owned, PL.LogsFormed, PL.LogsOwned, PL.StopsMatch;
  }

  // The state in which it waits for the worker, whose connection is c.
  function Waits(env: Env, s: State, r: RunId, p: P.State, c: S.Conn): State
    requires CanAsk(env, s, r)
  {
    s.(pool := p, conns := s.conns[s.pool.agents[r].w := c],
       runs := s.runs[r := s.runs[r].(disp := Asked(OpOfFrame(env, s, r), |Own(s, r).c.begun|))])
  }

  lemma Sends(env: Env, s: State, r: RunId) returns (t: State)
    requires CanAsk(env, s, r)
    ensures Next(env, s, Ask(r)) == Some(t) && t.pool.agents == s.pool.agents
    ensures var c := S.Locked(env.codec, Own(s, r).c, OpOfFrame(env, s, r));
            && c.Some? && c.value.host == S.Busy(Question(env, s, r), Frame(env.codec.encReq(Question(env, s, r))), [])
            && c.value.begun == Own(s, r).c.begun + [Question(env, s, r)]
            && c.value.py == Own(s, r).c.py && c.value.served == Own(s, r).c.served
            && t == Waits(env, s, r, t.pool, c.value)
  {
    t := StepAsk(env, s, r).value;
  }

  // The worker has replied, or is gone: the Run has only to read what came of it.
  ghost predicate Came(env: Env, s: State, t: State, r: RunId, reply: Option<Reply>) {
    && CanAsk(env, s, r)
    && t.cache == s.cache
    && t.runs == s.runs[r := s.runs[r].(disp := Asked(OpOfFrame(env, s, r), |Own(s, r).c.begun|))]
    && Active(t, r) && Returned(t, r) == Some(reply)
  }

  lemma AskedHealthy(env: Env, s: State, r: RunId) returns (t: State)
    requires env.Sound() && CanAsk(env, s, r) && Healthy(env.codec, Own(s, r).c)
    ensures Next(env, s, Ask(r)) == Some(t) && t.pool.agents == s.pool.agents
    ensures var w := s.pool.agents[r].w;
            && w in t.conns && t == Waits(env, s, r, t.pool, t.conns[w])
            && Healthy(env.codec, t.conns[w]) && t.conns[w].host.Busy? && t.conns[w].host.req == Question(env, s, r)
            && t.conns[w].begun == Own(s, r).c.begun + [Question(env, s, r)]
            && |t.conns[w].served| < |t.conns[w].begun|
  {
    t := Sends(env, s, r);
    var c := Own(s, r).c;
    StillHealthy(env.codec, c, OpOfFrame(env, s, r));
    hide Healthy, Next;
  }

  lemma StillHealthy(cd: Codec, c: S.Conn, op: Op)
    requires Healthy(cd, c) && c.host.Free? && !op.OpShutdown?
    requires |cd.encReq(RequestOf(op, NextId(c.seqNo)))| <= SOCKET_LIMIT
    ensures S.Locked(cd, c, op).Some?
    ensures var d := S.Locked(cd, c, op).value; Healthy(cd, d) && |d.served| < |d.begun|
  {
    S.StepLock(cd, c, op);
    var d := S.Locked(cd, c, op).value;
    forall q | q in d.begun ensures !q.Shutdown? && |cd.encReq(q)| <= SOCKET_LIMIT {
    }
  }

  lemma WorkerAnswers(env: Env, s: State, r: RunId, reply: Reply) returns (es: seq<Event>, t: State)
    requires env.Sound() && CanAsk(env, s, r) && Healthy(env.codec, Own(s, r).c)
    requires AllowedTo(env, Question(env, s, r), reply)
    ensures Run(env, s, es) == Some(t)
    ensures Came(env, s, t, r, if env.codec.Parses(reply) then Some(reply) else None)
  {
    var w := s.pool.agents[r].w;
    HealthyCounts(env.codec, Own(s, r).c);
    var t1 := AskedHealthy(env, s, r);
    hide Next, Healthy, AllowedTo;
    var rest, d := Answered(env, t1, w, reply);
    t := WithConn(t1, w, d);
    Cons(env, s, Ask(r), t1, rest);
    es := [Ask(r)] + rest;
  }

  lemma HealthyCounts(cd: Codec, c: S.Conn)
    requires Healthy(cd, c)
    ensures c.host.Free? ==> |c.returned| == |c.begun|
  {
  }

  lemma WorkerGone(env: Env, s: State, r: RunId) returns (es: seq<Event>, t: State)
    requires env.Sound() && CanAsk(env, s, r) && |Own(s, r).c.returned| == |Own(s, r).c.begun|
    requires Own(s, r).c.py.Exited?
    ensures Run(env, s, es) == Some(t) && Came(env, s, t, r, None)
  {
    var w := s.pool.agents[r].w;
    var t1 := Sends(env, s, r);
    t := Unanswered(env, t1, w);
    hide Next;
    OneMore(env, t1, SocketStep(w, S.SendFails), t);
    Cons(env, s, Ask(r), t1, [SocketStep(w, S.SendFails)]);
    es := [Ask(r)] + [SocketStep(w, S.SendFails)];
  }

  // The call ends with what came.
  lemma CallEnds(env: Env, s: State, t: State, r: RunId, reply: Option<Reply>, f: bool) returns (u: State)
    requires env.Sound() && Came(env, s, t, r, reply) && OpOfFrame(env, s, r).OpCall?
    ensures Next(env, t, CallReturned(r, f)) == Some(u)
    ensures Ends(s, u, r, System.ResponseTo(reply, f), Some(|Own(s, r).c.begun|)) && u.cache == s.cache
  {
    hide Returned, OpFor;
    u := Responds(env, t, r, System.ResponseTo(reply, f), Some(t.runs[r].disp.at));
  }

  // A probe that came back empty-handed.
  lemma ProbeFails(env: Env, s: State, t: State, r: RunId) returns (u: State)
    requires env.Sound() && Came(env, s, t, r, None) && OpOfFrame(env, s, r).OpProbe?
    ensures Next(env, t, ProbeReturned(r)) == Some(u)
    ensures Ends(s, u, r, Failure(NO_REPLY), Some(|Own(s, r).c.begun|)) && u.cache == s.cache
  {
    hide Returned, OpFor;
    u := Responds(env, t, r, Failure(NO_REPLY), Some(t.runs[r].disp.at));
  }

  // One that was answered is stored and passed on.
  lemma ProbeEnds(env: Env, s: State, t: State, r: RunId, p: Reply) returns (es: seq<Event>, u: State)
    requires env.Sound() && Came(env, s, t, r, Some(p)) && OpOfFrame(env, s, r).OpProbe?
    ensures Run(env, t, es) == Some(u)
    ensures Ends(s, u, r, ProbeAnswer(InfoOf(p)), Some(|Own(s, r).c.begun|))
    ensures u.cache == s.cache[OpOfFrame(env, s, r).target := InfoOf(p)]
  {
    hide Next, Returned, OpFor;
    var d := t.runs[r].disp;
    var t1, t2 := Stored(env, t, r, p);
    u := PassedOn(env, t2, r);
    OneMore(env, t2, SendProbe(r), u);
    Cons(env, t1, Store(r), t2, [SendProbe(r)]);
    Cons(env, t, ProbeReturned(r), t1, [Store(r)] + [SendProbe(r)]);
    es := [ProbeReturned(r)] + ([Store(r)] + [SendProbe(r)]);
  }

  lemma Stored(env: Env, t: State, r: RunId, p: Reply) returns (t1: State, t2: State)
    requires Active(t, r) && Returned(t, r) == Some(Some(p)) && t.runs[r].disp.op.OpProbe?
    ensures Next(env, t, ProbeReturned(r)) == Some(t1) && Next(env, t1, Store(r)) == Some(t2)
    ensures var d := t.runs[r].disp;
            && Active(t2, r) && t2.cache == t.cache[d.op.target := InfoOf(p)]
            && t2.runs == t.runs[r := t.runs[r].(disp := Ready(ProbeAnswer(InfoOf(p)), d.at))]
  {
    var d := t.runs[r].disp;
    t1 := t.(runs := t.runs[r := t.runs[r].(disp := Storing(d.op.target, InfoOf(p), d.at))]);
    t2 := t1.(cache := t1.cache[d.op.target := InfoOf(p)],
              runs := t1.runs[r := t1.runs[r].(disp := Ready(ProbeAnswer(InfoOf(p)), d.at))]);
    assert t2.runs == t.runs[r := t.runs[r].(disp := Ready(ProbeAnswer(InfoOf(p)), d.at))];
    hide Returned;
  }

  lemma PassedOn(env: Env, t: State, r: RunId) returns (u: State)
    requires env.Sound() && Active(t, r) && t.runs[r].disp.Ready? && t.runs[r].bridge.goro.Working?
    ensures Next(env, t, SendProbe(r)) == Some(u)
    ensures Ends(t, u, r, t.runs[r].disp.resp, Some(t.runs[r].disp.at)) && u.cache == t.cache
  {
    u := Responds(env, t, r, t.runs[r].disp.resp, Some(t.runs[r].disp.at));
  }

  // The worker's process dies, between requests.
  lemma Crashes(env: Env, s: State, r: RunId) returns (t: State)
    requires CanAsk(env, s, r) && !Own(s, r).c.py.Exited?
    ensures Next(env, s, SocketStep(s.pool.agents[r].w, S.Crash)) == Some(t)
    ensures CanAsk(env, t, r) && Own(t, r).c == Own(s, r).c.(py := S.Exited)
    ensures t == s.(conns := t.conns) && OpOfFrame(env, t, r) == OpOfFrame(env, s, r)
  {
    var w := s.pool.agents[r].w;
    t := WithConn(s, w, s.conns[w].(py := S.Exited));
  }

  // No reply comes.
  lemma NothingComes(env: Env, s: State, r: RunId) returns (es: seq<Event>, t: State)
    requires env.Sound() && CanAsk(env, s, r) && |Own(s, r).c.returned| == |Own(s, r).c.begun|
    ensures Run(env, s, es) == Some(t) && Came(env, s, t, r, None)
  {
    hide Next;
    if Own(s, r).c.py.Exited? {
      es, t := WorkerGone(env, s, r);
    } else {
      var s0 := Crashes(env, s, r);
      var rest;
      rest, t := WorkerGone(env, s0, r);
      Cons(env, s, SocketStep(s.pool.agents[r].w, S.Crash), s0, rest);
      es := [SocketStep(s.pool.agents[r].w, S.Crash)] + rest;
    }
  }

  // ---------------------------------------------------------------- refinement

  // Run r's goroutine has just read this request; the environment has the Run's
  // filter, and workers that answer probes as `answers` says.
  ghost predicate Setting(env: Env, s: State, r: RunId, answers: string -> ProbeInfo, cfg: F.Config,
                          req: D.BridgeRequest, argText: D.BridgeRequest -> bytes)
  {
    && env.Sound() && Inv(env, s) && Dispatching(s, r)
    && Reads(env, s.runs[r].bridge.goro.body, req, argText)
    && Same(env, r, cfg, answers)
    && HasQuestion(env, s, r) && |env.codec.encReq(Question(env, s, r))| <= SOCKET_LIMIT
  }

  // The worker is there to give this reply, and the host can read it.
  ghost predicate CanReply(env: Env, s: State, r: RunId, reply: Reply) {
    && HasQuestion(env, s, r)
    && Healthy(env.codec, Own(s, r).c) && AllowedTo(env, Question(env, s, r), reply) && env.codec.Parses(reply)
  }

  // Once cleared, the Run can ask.
  lemma ReadyToAsk(env: Env, s: State, r: RunId, answers: string -> ProbeInfo, cfg: F.Config, req: D.BridgeRequest,
                   argText: D.BridgeRequest -> bytes)
    returns (t: State)
    requires Setting(env, s, r, answers, cfg, req, argText) && LocalResponse(env, s, r).None?
    ensures Next(env, s, Clear(r)) == Some(t) && t == s.(runs := s.runs[r := s.runs[r].(disp := Cleared)])
    ensures CanAsk(env, t, r) && Own(t, r) == Own(s, r) && OpOfFrame(env, t, r) == OpOfFrame(env, s, r)
    ensures |Own(s, r).c.returned| == |Own(s, r).c.begun|
  {
    hide Inv, Next, LocalResponse, Reads, Same, Env.Sound;
    t := Clears(env, s, r);
    HolderCanAsk(env, s, r);
    HolderCounts(env, s, r);
  }

  lemma HolderCounts(env: Env, s: State, r: RunId)
    requires Inv(env, s) && HasOwn(s, r) && Own(s, r).c.host.Free?
    ensures |Own(s, r).c.returned| == |Own(s, r).c.begun|
  {
    hide Core, PL.Inv;
    ServedFacts(env, s, s.pool.agents[r].w);
  }

  lemma WhyRefused(lib: W.Lib, req: D.BridgeRequest, e: D.DispatchError)
    requires D.SomeArgRefused(lib, req, e)
    ensures e in {D.DecodeFailed, D.AllocFailed, D.UnknownHandle}
  {
    hide D.AllPass, D.Inlines, D.InlineKeys;
  }

  lemma FilterPasses(env: Env, s: State, r: RunId, answers: string -> ProbeInfo, cfg: F.Config, req: D.BridgeRequest,
                     argText: D.BridgeRequest -> bytes)
    requires Setting(env, s, r, answers, cfg, req, argText) && !D.IsProbe(req.fn)
    ensures Dispatching(s, r) && env.Sound() && HasQuestion(env, s, r) && OpOfFrame(env, s, r).OpCall?
    ensures env.parse(s.runs[r].bridge.goro.body).CallOf?
    ensures LocalResponse(env, s, r) == if F.Documented(cfg, req.fn) then None else Some(Failure(NOT_ALLOWED))
  {
    hide Inv, F.Documented, HasOwn;
  }

  // An allowed call with its worker's reply, or with none.
  lemma CallAnswered(env: Env, s: State, r: RunId, answers: string -> ProbeInfo, cfg: F.Config, req: D.BridgeRequest,
                     argText: D.BridgeRequest -> bytes, text: Option<W.Arg> -> bytes,
                     reply: Option<D.CallReply>, f: bool)
    returns (es: seq<Event>, t: State, at: Option<nat>)
    requires Setting(env, s, r, answers, cfg, req, argText) && !D.IsProbe(req.fn) && F.Documented(cfg, req.fn)
    requires reply.Some? ==> CanReply(env, s, r, ReplyTo(AskId(s, r), reply.value, text))
    ensures Run(env, s, es) == Some(t) && at.Some? && t.cache == s.cache
    ensures var p := if reply.Some? then Some(ReplyTo(AskId(s, r), reply.value, text)) else None;
            Ends(s, t, r, System.ResponseTo(p, f), at)
  {
    hide Inv, Next, F.Documented, Healthy, AllowedTo, Setting, Came;
    FilterPasses(env, s, r, answers, cfg, req, argText);
    var s1 := ReadyToAsk(env, s, r, answers, cfg, req, argText);
    var p := if reply.Some? then Some(ReplyTo(AskId(s, r), reply.value, text)) else None;
    var mid, s2;
    if reply.Some? {
      mid, s2 := WorkerAnswers(env, s1, r, p.value);
    } else {
      mid, s2 := NothingComes(env, s1, r);
    }
    t := CallEnds(env, s1, s2, r, p, f);
    at := Some(|Own(s1, r).c.begun|);
    OneMore(env, s2, CallReturned(r, f), t);
    RunConcat(env, s1, mid, [CallReturned(r, f)]);
    Cons(env, s, Clear(r), s1, mid + [CallReturned(r, f)]);
    es := [Clear(r)] + (mid + [CallReturned(r, f)]);
  }

  // The responses agree.
  lemma SeenReply(lib: W.Lib, o: D.Outcome, id: ReqId, text: Option<W.Arg> -> bytes)
    ensures var resp := D.ResponseTo(lib, o);
            var p := if o.reply.Some? then Some(ReplyTo(id, o.reply.value, text)) else None;
            System.ResponseTo(p, resp == D.Failure(D.ReadFailed)) == Seen(resp, o.reply, text)
  {
  }

  // What the worker said to the call behind the response, if there was one.
  function Said(wk: D.Worker, req: D.BridgeRequest, site: Option<D.CallSite>): Option<D.CallReply> {
    if site.None? then None
    else wk.call(req.fn, site.value.args, site.value.kwargs, site.value.files).reply
  }

  // Whatever dispatch may make of a call, the system can make of it: there is a run
  // of this Run's own steps and its worker's that ends with the same response,
  // whether the filter refuses the call, an argument, the worker, the host's reading
  // of a result array, or nobody; the worker is asked exactly when dispatch calls it.
  lemma CallRefines(env: Env, s: State, r: RunId, lib: W.Lib, wk: D.Worker, answers: string -> ProbeInfo,
                    cfg: F.Config, req: D.BridgeRequest, argText: D.BridgeRequest -> bytes,
                    text: Option<W.Arg> -> bytes, resp: D.BridgeResponse, site: Option<D.CallSite>)
    returns (es: seq<Event>, t: State, at: Option<nat>)
    requires Setting(env, s, r, answers, cfg, req, argText) && !D.IsProbe(req.fn)
    requires D.Served(lib, wk, answers, cfg, req, s.cache.Keys, resp, site)
    requires Said(wk, req, site).Some? ==> CanReply(env, s, r, ReplyTo(AskId(s, r), Said(wk, req, site).value, text))
    ensures Run(env, s, es) == Some(t) && Ends(s, t, r, Seen(resp, Said(wk, req, site), text), at)
    ensures t.cache == s.cache && (at.Some? <==> site.Some?)
  {
    hide F.Documented, D.SomeArgRefused, D.AllPass, CanReply, Setting, D.ResponseTo, Inv, LocalResponse, Ends;
    FilterPasses(env, s, r, answers, cfg, req, argText);
    at := None;
    if !F.Documented(cfg, req.fn) {
      es, t := Locally(env, s, r, Failure(NOT_ALLOWED));
    } else if site.None? {
      WhyRefused(lib, req, resp.error);
      es, t := ArgumentsFail(env, s, r);
    } else {
      var o := wk.call(req.fn, site.value.args, site.value.kwargs, site.value.files);
      SeenReply(lib, o, AskId(s, r), text);
      es, t, at := CallAnswered(env, s, r, answers, cfg, req, argText, text, o.reply, resp == D.Failure(D.ReadFailed));
    }
  }

  // ---------------------------------------------------------------- probes

  // What the shim is sent for a probe, in the system's terms.
  ghost predicate SeenProbe(lib: W.Lib, resp: D.BridgeResponse, sys: Response) {
    if sys.ProbeAnswer? then T.TellsProbe(lib, resp, sys.info)
    else resp == D.Failure(D.NoReply) && sys == Failure(NO_REPLY)
  }

  function ProbeReply(id: ReqId, info: ProbeInfo): Reply { ProbeResult(id, info.isModule, info.isCallable) }

  lemma ProbeLocal(env: Env, s: State, r: RunId, answers: string -> ProbeInfo, cfg: F.Config, req: D.BridgeRequest,
                   argText: D.BridgeRequest -> bytes)
    requires Setting(env, s, r, answers, cfg, req, argText) && D.IsProbe(req.fn)
    ensures Dispatching(s, r) && env.Sound() && HasQuestion(env, s, r)
    ensures var t := D.Target(req.fn);
            && OpOfFrame(env, s, r) == OpProbe(t)
            && LocalResponse(env, s, r) == if t in s.cache then Some(ProbeAnswer(answers(t))) else None
  {
    CacheRight(env, s);
    hide Inv, HasOwn, F.Documented;
  }

  lemma CacheRight(env: Env, s: State)
    requires Inv(env, s)
    ensures CacheOK(env, s)
  {
    hide PL.Inv, WorkersOK, RunsOK, MutexOK;
  }

  // The worker is there to answer a probe that misses the cache, if it is to.
  ghost predicate ProbeReady(env: Env, s: State, r: RunId, wk: D.Worker, answers: string -> ProbeInfo, target: string) {
    target !in s.cache && wk.probe(target).Some? ==> CanReply(env, s, r, ProbeReply(AskId(s, r), answers(target)))
  }

  // And whatever it may make of a probe, the cache included.
  lemma ProbeRefines(env: Env, s: State, r: RunId, lib: W.Lib, wk: D.Worker, answers: string -> ProbeInfo,
                     cfg: F.Config, req: D.BridgeRequest, argText: D.BridgeRequest -> bytes,
                     target: string, resp: D.BridgeResponse, site: Option<D.CallSite>)
    returns (es: seq<Event>, t: State, at: Option<nat>, sys: Response)
    requires D.IsProbe(req.fn) && target == D.Target(req.fn)
    requires Setting(env, s, r, answers, cfg, req, argText) && ProbeReady(env, s, r, wk, answers, target)
    requires D.Served(lib, wk, answers, cfg, req, s.cache.Keys, resp, site)
    ensures Run(env, s, es) == Some(t) && Ends(s, t, r, sys, at) && SeenProbe(lib, resp, sys)
    ensures t.cache == if target !in s.cache && wk.probe(target).Some? then s.cache[target := answers(target)]
                       else s.cache
  {
    hide CanReply, Setting, Inv, LocalResponse, Ends, Came, CanAsk, Next, OpFor, T.TellsProbe, D.ProbeValue;
    ProbeLocal(env, s, r, answers, cfg, req, argText);
    T.ProbeRead(lib, answers(target));
    at := None;
    sys := if target in s.cache || wk.probe(target).Some? then ProbeAnswer(answers(target)) else Failure(NO_REPLY);
    if target in s.cache {
      es, t := Locally(env, s, r, sys);
    } else {
      es, t, at := ProbeAsked(env, s, r, wk, answers, cfg, req, argText, target);
    }
  }

  lemma ProbeAsked(env: Env, s: State, r: RunId, wk: D.Worker, answers: string -> ProbeInfo,
                   cfg: F.Config, req: D.BridgeRequest, argText: D.BridgeRequest -> bytes, target: string)
    returns (es: seq<Event>, t: State, at: Option<nat>)
    requires D.IsProbe(req.fn) && target == D.Target(req.fn) && target !in s.cache
    requires Setting(env, s, r, answers, cfg, req, argText) && ProbeReady(env, s, r, wk, answers, target)
    ensures Run(env, s, es) == Some(t) && at.Some?
    ensures if wk.probe(target).Some?
            then Ends(s, t, r, ProbeAnswer(answers(target)), at) && t.cache == s.cache[target := answers(target)]
            else Ends(s, t, r, Failure(NO_REPLY), at) && t.cache == s.cache
  {
    hide Inv, Next, Healthy, AllowedTo, Setting, Came;
    ProbeLocal(env, s, r, answers, cfg, req, argText);
    var s1 := ReadyToAsk(env, s, r, answers, cfg, req, argText);
    at := Some(|Own(s1, r).c.begun|);
    var p := ProbeReply(AskId(s, r), answers(target));
    var mid, s2, last;
    if wk.probe(target).Some? {
      mid, s2 := WorkerAnswers(env, s1, r, p);
      last, t := ProbeEnds(env, s1, s2, r, p);
    } else {
      mid, s2 := NothingComes(env, s1, r);
      t := ProbeFails(env, s1, s2, r);
      last := [ProbeReturned(r)];
      OneMore(env, s2, ProbeReturned(r), t);
    }
    RunConcat(env, s1, mid, last);
    Cons(env, s, Clear(r), s1, mid + last);
    es := [Clear(r)] + (mid + last);
  }
}
