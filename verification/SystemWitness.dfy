/** The theorems about waiting Runs are about something: in every environment
    whose texts are short there is a run in which a Run gets a worker, its shim
    calls, and the call is answered. */
module SystemWitness {
  import opened Framing
  import opened Wrappers
  import opened Messages
  import opened System
  import opened SystemRuns
  import opened SystemProgress
  import opened SystemExchange
  import opened SystemLengths
  import opened SystemLiveness
  import B = Bridge
  import BR = BridgeRuns
  import S = Socket
  import P = Pool

  // ---------------------------------------------------------------- a ping

  ghost predicate SmallPing(cd: Codec) {
    |cd.encReq(Ping)| <= SOCKET_LIMIT && |cd.encRep(Pong)| <= SOCKET_LIMIT
  }

  // ---------------------------------------------------------------- in the system

  // The beginning of a behaviour is a run.
  lemma {:induction false} Beginning(env: Env, at: nat -> State, ev: nat -> Option<Event>, n: nat)
    returns (es: seq<Event>)
    requires Behaviour(env, at, ev)
    ensures Run(env, at(0), es) == Some(at(n))
  {
    hide Next;
    es := [];
    if n > 0 {
      es := Beginning(env, at, ev, n - 1);
      if ev(n - 1).Some? {
        OneMore(env, at(n - 1), ev(n - 1).value, at(n));
        RunConcat(env, at(0), es, [ev(n - 1).value]);
        es := es + [ev(n - 1).value];
      }
    }
  }

  // A pool of one idle worker.
  function OneWorker(): State {
    State(P.State(1, [0], false, false, P.NotClosing, map[], map[0 := []], {}, 0, 0, map[], map[]),
          map[0 := S.FRESH], map[], map[])
  }

  // Run 0 arrives, takes worker 0 and starts to ping it.
  lemma Arrives(env: Env) returns (s: State)
    requires SmallPing(env.codec)
    ensures Run(env, OneWorker(), [PoolStep(P.Arrive(0)), PoolStep(P.Take(0)), StartPing(0)]) == Some(s)
    ensures S.Locked(env.codec, S.FRESH, OpPing).Some?
    ensures s.conns == map[0 := S.Locked(env.codec, S.FRESH, OpPing).value]
    ensures 0 in s.pool.agents && s.pool.agents[0] == P.Pinging(0) && s.runs == map[]
  {
    var s0 := OneWorker();
    assert RequestOf(OpPing, 1) == Ping && S.Locked(env.codec, S.FRESH, OpPing).Some?;
    hide S.Locked;
    var c := S.Locked(env.codec, S.FRESH, OpPing).value;
    var p1 := P.StepArrive(s0.pool, 0).value;
    var p2 := P.StepTake(p1, 0).value;
    var p3 := P.StepPing(p2, 0).value;
    assert s0.conns[0 := c] == map[0 := c];
    s := s0.(pool := p3, conns := map[0 := c]);
    TakeSteps(env, s0, s0.(pool := p1), s0.(pool := p2), s);
  }

  // The whole exchange on worker 0's connection, however small its buffers are.
  lemma Pinged(env: Env, s: State) returns (es: seq<Event>, d: S.Conn)
    requires env.Sound() && SmallPing(env.codec) && S.Locked(env.codec, S.FRESH, OpPing).Some?
    requires s.conns == map[0 := S.Locked(env.codec, S.FRESH, OpPing).value]
    ensures Run(env, s, es) == Some(s.(conns := map[0 := d])) && d.host.Free? && d.returned == [Some(Pong)]
  {
    PingOpen(env.codec);
    PongAllowed(env);
    hide S.Locked, Next, Run, Healthy, AllowedTo, Env.Sound, SmallPing, OnlySocket;
    assert env.codec.Parses(Pong) && s.conns[0] == S.Locked(env.codec, S.FRESH, OpPing).value;
    es, d := Answered(env, s, 0, Pong);
    assert s.conns[0 := d] == map[0 := d];
  }

  lemma PongAllowed(env: Env)
    requires env.Sound() && SmallPing(env.codec)
    ensures AllowedTo(env, Ping, Pong) && env.codec.Parses(Pong)
  {
  }

  lemma PingOpen(cd: Codec)
    requires SmallPing(cd) && S.Locked(cd, S.FRESH, OpPing).Some?
    ensures var c := S.Locked(cd, S.FRESH, OpPing).value;
            Healthy(cd, c) && c.host.Busy? && c.host.req == Ping && c.served == [] && |c.begun| == 1
  {
    S.StepLock(cd, S.FRESH, OpPing);
  }

  // Run 0 after Acquire.
  lemma Acquired(env: Env) returns (es: seq<Event>, s: State)
    requires env.Sound() && ShortTexts(env) && SmallPing(env.codec)
    ensures Run(env, OneWorker(), es) == Some(s)
    ensures Active(s, 0) && s.runs[0] == RUN_INIT
  {
    var s3 := Arrives(env);
    var first := [PoolStep(P.Arrive(0)), PoolStep(P.Take(0)), StartPing(0)];
    var pinged, d := Pinged(env, s3);
    var s6 := s3.(conns := map[0 := d]);
    s := StepPingDone(s6, 0).value;
    OneMore(env, s6, PingDone(0), s);
    hide Run, Next;
    RunConcat(env, OneWorker(), first, pinged);
    RunConcat(env, OneWorker(), first + pinged, [PingDone(0)]);
    es := first + pinged + [PingDone(0)];
  }

  lemma TakeSteps(env: Env, s0: State, s1: State, s2: State, s3: State)
    requires Next(env, s0, PoolStep(P.Arrive(0))) == Some(s1)
    requires Next(env, s1, PoolStep(P.Take(0))) == Some(s2)
    requires Next(env, s2, StartPing(0)) == Some(s3)
    ensures Run(env, s0, [PoolStep(P.Arrive(0)), PoolStep(P.Take(0)), StartPing(0)]) == Some(s3)
  {
    hide Next;
    var es := [PoolStep(P.Arrive(0)), PoolStep(P.Take(0)), StartPing(0)];
    assert Run(env, s3, es[3..]) == Some(s3);
    assert Run(env, s2, es[2..]) == Run(env, s3, es[2..][1..]) && es[2..][1..] == es[3..];
    assert Run(env, s1, es[1..]) == Run(env, s2, es[1..][1..]) && es[1..][1..] == es[2..];
  }

  // A call is made and answered, whatever its frame.
  lemma ACallIsAnswered(env: Env, answer: Request -> Reply, body: bytes) returns (es: seq<Event>)
    requires env.Sound() && ShortTexts(env) && Answerer(env, answer) && SmallPing(env.codec) && B.InRange(body)
    ensures Initial(OneWorker()) && Run(env, OneWorker(), es).Some?
    ensures var t := Run(env, OneWorker(), es).value;
            0 in t.runs && t.runs[0].bridge.asked == [body] && |t.runs[0].bridge.read| == 1
  {
    hide Answerer, ShortTexts, SmallPing, Run, Next, Behaviour, Serves, Initial;
    var first, s := Acquired(env);
    var t := Called(env, s, body);
    var ask := BridgeStep(0, B.Request(body));
    OneMore(env, s, ask, t);
    OneWorkerStarts();
    RunConcat(env, OneWorker(), first, [ask]);
    assert Reachable(env, t);
    var at, ev := ServingBehaviour(env, t, 0, answer);
    var m := EveryCallReturns(env, at, ev, 0, 0);
    var rest := Beginning(env, at, ev, m);
    RunConcat(env, OneWorker(), first + [ask], rest);
    es := first + [ask] + rest;
    assert Reachable(env, at(m));
    NeverTooLong(env, at(m));
  }

  lemma OneWorkerStarts()
    ensures Initial(OneWorker())
  {
  }

  lemma Called(env: Env, s: State, body: bytes) returns (t: State)
    requires Active(s, 0) && s.runs[0] == RUN_INIT && B.InRange(body)
    ensures Next(env, s, BridgeStep(0, B.Request(body))) == Some(t)
    ensures Active(t, 0)
    ensures var b := t.runs[0].bridge;
            b.main.InModule? && !b.shim.Running? && BR.AllInRange(b) && b.asked == [body]
  {
    assert [] + [body] == [body];
    t := s.(runs := s.runs[0 := RUN_INIT.(bridge := B.Next(B.INIT, B.Request(body)).value)]);
  }

  // ---------------------------------------------------------------- an environment

  // A text that marks its own end.
  function TextBytes(s: string): (b: bytes)
    ensures |b| == 5 * |s| + 1
  {
    if s == "" then [0] else [1] + PackU32(s[0] as int) + TextBytes(s[1..])
  }

  function IdBytes(id: ReqId): (b: bytes)
    ensures |b| == 8
  {
    PackU32(id / U32) + PackU32(id % U32)
  }

  lemma PackInjective(m: nat, n: nat)
    requires m < U32 && n < U32 && PackU32(m) == PackU32(n)
    ensures m == n
  {
    UnpackPack(m);
    UnpackPack(n);
  }

  lemma IdInjective(i: ReqId, j: ReqId, s: bytes, t: bytes)
    requires IdBytes(i) + s == IdBytes(j) + t
    ensures i == j && s == t
  {
    var x, y := IdBytes(i) + s, IdBytes(j) + t;
    assert x[..4] == PackU32(i / U32) && y[..4] == PackU32(j / U32);
    assert x[4..8] == PackU32(i % U32) && y[4..8] == PackU32(j % U32);
    assert x[8..] == s && y[8..] == t;
    PackInjective(i / U32, j / U32);
    PackInjective(i % U32, j % U32);
  }

  lemma {:induction false} TextInjective(a: string, b: string, s: bytes, t: bytes)
    requires TextBytes(a) + s == TextBytes(b) + t
    ensures a == b && s == t
    decreases |a|
  {
    var x, y := TextBytes(a) + s, TextBytes(b) + t;
    assert x[0] == if a == "" then 0 else 1;
    assert y[0] == if b == "" then 0 else 1;
    if a == "" {
      assert x[1..] == s && y[1..] == t;
    } else {
      assert x[1..5] == PackU32(a[0] as int) && y[1..5] == PackU32(b[0] as int);
      PackInjective(a[0] as int, b[0] as int);
      assert x[5..] == TextBytes(a[1..]) + s && y[5..] == TextBytes(b[1..]) + t;
      TextInjective(a[1..], b[1..], s, t);
      assert a == [a[0]] + a[1..] && b == [b[0]] + b[1..];
    }
  }

  function EncodeRequest(q: Request): (b: bytes)
    ensures b != []
  {
    match q
    case Ping => [1]
    case Shutdown => [2]
    case Probe(id, t) => [3] + (IdBytes(id) + (TextBytes(t) + []))
    case Call(id, f, a) => [4] + (IdBytes(id) + (TextBytes(f) + a))
  }

  lemma RequestsDiffer(p: Request, q: Request)
    requires EncodeRequest(p) == EncodeRequest(q)
    ensures p == q
  {
    var x, y := EncodeRequest(p), EncodeRequest(q);
    assert x[0] == y[0];
    if p.Probe? || p.Call? {
      var s, t := if p.Probe? then p.target else p.func, if q.Probe? then q.target else q.func;
      var v, w := if p.Probe? then [] else p.args, if q.Probe? then [] else q.args;
      assert x[1..] == IdBytes(p.id) + (TextBytes(s) + v) && y[1..] == IdBytes(q.id) + (TextBytes(t) + w);
      IdInjective(p.id, q.id, TextBytes(s) + v, TextBytes(t) + w);
      TextInjective(s, t, v, w);
    }
  }

  function EncodeReply(p: Reply): (b: bytes)
    ensures b != []
  {
    match p
    case Pong => [1]
    case ShutdownAck => [2]
    case ProbeResult(id, m, c) => [3] + (IdBytes(id) + [if m then 1 else 0, if c then 1 else 0])
    case Result(id, v) => [4] + (IdBytes(id) + v)
    case Error(id, t) => [5] + (IdBytes(id) + (TextBytes(t) + []))
  }

  lemma RepliesDiffer(p: Reply, q: Reply)
    requires EncodeReply(p) == EncodeReply(q)
    ensures p == q
  {
    var x, y := EncodeReply(p), EncodeReply(q);
    assert x[0] == y[0];
    if p.Result? || p.Error? || p.ProbeResult? {
      var v := if p.Result? then p.value
               else if p.Error? then TextBytes(p.text) + []
               else [if p.isModule then 1 else 0, if p.isCallable then 1 else 0];
      var w := if q.Result? then q.value
               else if q.Error? then TextBytes(q.text) + []
               else [if q.isModule then 1 else 0, if q.isCallable then 1 else 0];
      assert x[1..] == IdBytes(p.id) + v && y[1..] == IdBytes(q.id) + w;
      IdInjective(p.id, q.id, v, w);
      if p.Error? {
        TextInjective(p.text, q.text, [], []);
      } else if p.ProbeResult? {
        assert v[0] == w[0] && v[1] == w[1];
      }
    }
  }

  ghost function DecodeRequest(b: bytes): Option<Request> {
    if exists q :: EncodeRequest(q) == b then (var q :| EncodeRequest(q) == b; Some(q)) else None
  }

  // Results the host cannot read come to nothing.
  ghost function DecodeReply(b: bytes, readable: bytes -> bool): Option<Reply> {
    if exists p :: EncodeReply(p) == b && (p.Result? ==> readable(p.value))
    then (var p :| EncodeReply(p) == b && (p.Result? ==> readable(p.value)); Some(p))
    else None
  }

  function AnswerTo(q: Request): Reply {
    match q
    case Ping => Pong
    case Shutdown => ShutdownAck
    case Probe(id, _) => ProbeResult(id, false, false)
    case Call(id, _, _) => Result(id, [])
  }

  function EncodeResponse(p: Response): (b: bytes)
    ensures b != []
  {
    match p
    case Ack => [1]
    case Failure(text) => [2] + (TextBytes(text) + [])
    case ProbeAnswer(info) => [3, if info.isModule then 1 else 0, if info.isCallable then 1 else 0]
    case Value(v) => [4] + v
  }

  lemma ResponsesDiffer(p: Response, q: Response)
    requires EncodeResponse(p) == EncodeResponse(q)
    ensures p == q
  {
    var x, y := EncodeResponse(p), EncodeResponse(q);
    assert x[0] == y[0];
    match p
    case Failure(text) =>
      assert x[1..] == TextBytes(text) + [] && y[1..] == TextBytes(q.text) + [];
      TextInjective(text, q.text, [], []);
    case ProbeAnswer(_) => assert x[1] == y[1] && x[2] == y[2];
    case Value(v) => assert x[1..] == v && y[1..] == q.value;
    case Ack =>
  }

  function Chars(b: bytes): (s: string)
    ensures |s| == |b|
  {
    seq(|b|, i requires 0 <= i < |b| => b[i] as int as char)
  }

  // The first byte says what a frame asks for.
  function ParseFrame(b: bytes): Parsed {
    if b == [] then Malformed
    else match b[0]
         case 1 => Sentinel(Chars(b[1..]))
         case 2 => ProbeOf(Chars(b[1..]))
         case 3 => CallOf("f", b[1..])
         case 4 => CallOf("g", b[1..])
         case _ => Malformed
  }

  // Messages and responses with texts of their own, frames of all kinds, one
  // function allowed and another not, socket buffers of any size, and any results
  // the host cannot read.
  ghost function SomeEnv(window: nat, readable: bytes -> bool): Env {
    Env(Codec(EncodeRequest, DecodeRequest, EncodeReply, b => DecodeReply(b, readable), window),
        ParseFrame, EncodeResponse, (r, f) => f == "f", t => ProbeInfo(false, false))
  }

  lemma MessagesDecode(window: nat, readable: bytes -> bool)
    requires window >= 1
    ensures SomeEnv(window, readable).Sound()
    ensures forall p: Reply :: SomeEnv(window, readable).codec.Parses(p) <==> (p.Result? ==> readable(p.value))
  {
    hide EncodeRequest, EncodeReply;
    var cd := SomeEnv(window, readable).codec;
    forall q ensures cd.decReq(cd.encReq(q)) == Some(q) {
      var d := DecodeRequest(EncodeRequest(q)).value;
      RequestsDiffer(d, q);
    }
    forall p: Reply ensures cd.decRep(cd.encRep(p)) == if p.Result? ==> readable(p.value) then Some(p) else None {
      if DecodeReply(EncodeReply(p), readable).Some? {
        RepliesDiffer(DecodeReply(EncodeReply(p), readable).value, p);
      }
    }
  }

  lemma TextsFit(window: nat, readable: bytes -> bool)
    ensures ShortTexts(SomeEnv(window, readable))
  {
    hide DecodeRequest, DecodeReply, TextBytes;
  }

  lemma AnswersFit(window: nat, readable: bytes -> bool)
    ensures Answerer(SomeEnv(window, readable), AnswerTo) && SmallPing(SomeEnv(window, readable).codec)
  {
    hide DecodeRequest, DecodeReply, TextBytes;
  }

  // The hypotheses can be met.
  lemma Environment(window: nat, readable: bytes -> bool)
    requires window >= 1
    ensures var env := SomeEnv(window, readable);
            && env.Sound() && ShortTexts(env) && Answerer(env, AnswerTo) && SmallPing(env.codec)
            && (forall p, q :: env.encResp(p) == env.encResp(q) ==> p == q)
            && (forall p: Reply :: env.codec.Parses(p) <==> (p.Result? ==> readable(p.value)))
  {
    var env := SomeEnv(window, readable);
    MessagesDecode(window, readable);
    TextsFit(window, readable);
    AnswersFit(window, readable);
    hide ShortTexts, Answerer, SmallPing, EncodeResponse;
    forall p, q | env.encResp(p) == env.encResp(q) ensures p == q {
      ResponsesDiffer(p, q);
    }
  }
}
