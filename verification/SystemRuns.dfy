/** What holds in every run of the whole system, for any number of Runs and
    workers and any interleaving. */
module SystemRuns {
  import opened Framing
  import opened Wrappers
  import opened Messages
  import opened System
  import opened SystemInv
  import opened SystemSteps
  import opened SystemMoves
  import B = Bridge
  import S = Socket
  import P = Pool
  import PL = PoolLogs

  // A state some run reaches.
  ghost predicate Reachable(env: Env, s: State) {
    exists s0, es :: Initial(s0) && Run(env, s0, es) == Some(s)
  }

  lemma ReachableInv(env: Env, s: State)
    requires env.Sound() && Reachable(env, s)
    ensures Inv(env, s)
  {
    hide Inv;
    var s0, es :| Initial(s0) && Run(env, s0, es) == Some(s);
    SystemInv.InvInitial(env, s0);
    InvRun(env, s0, es);
  }

  // The n-th request worker w got was Run r's op, and rep is what the worker
  // itself answered to it.
  ghost predicate WorkerServed(s: State, w: Wid, n: nat, r: RunId, op: Op, rep: Reply) {
    && w in s.conns && w in s.pool.log
    && n < |s.conns[w].served| && n < |s.pool.log[w]|
    && s.pool.log[w][n] == P.Use(P.ByRun(r), op)
    && OpOf(s.conns[w].served[n].0) == op
    && s.conns[w].served[n].1 == rep
    && Answers(s.conns[w].served[n].0, rep)
  }

  // That request came back empty-handed: the worker process is gone, or it is a call
  // and the host cannot parse the result the worker sent.
  ghost predicate NoReplyTo(env: Env, s: State, w: Wid, n: nat, r: RunId, op: Op) {
    && w in s.conns && w in s.pool.log
    && n < |s.conns[w].returned| && n < |s.pool.log[w]|
    && s.pool.log[w][n] == P.Use(P.ByRun(r), op)
    && s.conns[w].returned[n].None?
    && (s.conns[w].py.Exited? || Unparsed(env, s.conns[w], n, op))
  }

  ghost predicate Unparsed(env: Env, c: S.Conn, n: nat, op: Op) {
    op.OpCall? && n < |c.served| && c.served[n].1.Result? && !env.codec.Parses(c.served[n].1)
  }

  // A request of Run r to its worker and what came of it.
  ghost predicate Asked(env: Env, s: State, r: RunId, op: Op, at: nat, resp: Response) {
    && r in s.pool.lease
    && (|| (resp == Failure(NO_REPLY) && NoReplyTo(env, s, s.pool.lease[r], at, r, op))
        || exists rep ::
             && WorkerServed(s, s.pool.lease[r], at, r, op, rep) && env.codec.Parses(rep)
             && Conveys(rep, resp))
  }

  // What the shim is sent for a reply: a probe's two flags, a result's value or the
  // failure to encode it, an error's text.
  predicate Conveys(rep: Reply, resp: Response) {
    match rep
    case ProbeResult(_, m, c) => resp == ProbeAnswer(ProbeInfo(m, c))
    case Result(_, v) => resp == Value(v) || resp == Failure(BAD_RESULT)
    case Error(_, text) => resp == Failure(text)
    case _ => false
  }

  // End to end. In every reachable state, while the Run's answers are below 4 GiB,
  // the k-th frame the shim of Run r has read answers the k-th frame it wrote:
  //  - a stdout sentinel is acknowledged, a bad request refused;
  //  - a probe gets the one answer all workers give, from the cache or from the
  //    worker's own answer to that very probe;
  //  - a call the Run's filter forbids is refused; an allowed one gets the
  //    response to the worker's own answer to that very call, made for this Run
  //    on the worker it leased, or is refused for its arguments;
  //  - a probe or call fails for want of a reply only if that very request came back
  //    empty-handed, the worker process being gone or, for a call, its result being
  //    one the host cannot parse.
  lemma EndToEnd(env: Env, s: State, r: RunId, k: nat) returns (resp: Response, at: Option<nat>)
    requires env.Sound() && Reachable(env, s) && r in s.runs && k < |s.runs[r].bridge.read|
    requires B.Short(s.runs[r].bridge)
    ensures k < |s.runs[r].bridge.asked| && s.runs[r].bridge.read[k] == env.encResp(resp)
    ensures match env.parse(s.runs[r].bridge.asked[k])
            case Sentinel(_) => resp == Ack && at == None
            case Malformed => resp == Failure(BAD_REQUEST) && at == None
            case ProbeOf(t) =>
              && (resp == ProbeAnswer(env.probe(t)) || resp == Failure(NO_REPLY))
              && (if at == None then resp.ProbeAnswer? else Asked(env, s, r, OpProbe(t), at.value, resp))
            case CallOf(f, a) =>
              if !env.allow(r, f) then resp == Failure(NOT_ALLOWED) && at == None
              else if at == None then resp == Failure(BAD_ARGUMENT)
              else Asked(env, s, r, OpCall(f, a), at.value, resp)
  {
    hide PL.Inv, RunOK, Reachable, Asked, WorkersOK, RunsOK, MutexOK;
    ReachableInv(env, s);
    var rs := s.runs[r];
    RunIsOK(env, s, r);
    RunFacets(env, r, rs, LeasedTo(s, r));
    resp, at := rs.hist[k].resp, rs.hist[k].at;
    assert ExchangeOK(env, r, rs.hist[k], LeasedTo(s, r));
    if at.Some? && OpFor(env.parse(rs.bridge.asked[k])).Some? {
      RequestWasServed(env, s, r, rs.hist[k]);
    }
  }

  lemma RunIsOK(env: Env, s: State, r: RunId)
    requires Inv(env, s) && r in s.runs
    ensures Keyed(s) && s.pool.lease[r] in s.conns && RunOK(env, r, s.runs[r], LeasedTo(s, r))
  {
    hide PL.Inv, WorkerOK, RunOK, MutexOK;
  }

  lemma RunFacets(env: Env, r: RunId, rs: RunState, k: Leased)
    requires RunOK(env, r, rs, k)
    ensures |rs.hist| == |rs.bridge.answers| == |rs.bridge.processed|
    ensures rs.bridge.processed <= rs.bridge.asked
    ensures B.Short(rs.bridge) ==> rs.bridge.read <= rs.bridge.answers
    ensures forall i | 0 <= i < |rs.hist| ::
              rs.hist[i].body == rs.bridge.processed[i] && env.encResp(rs.hist[i].resp) == rs.bridge.answers[i]
    ensures rs.stdout == TextsOf(env, rs.bridge.processed)
    ensures ExchangesOK(env, r, rs, k)
    ensures exists n :: AtsBelow(rs.hist, n)
  {
    hide ExchangeOK, B.Inv, AtsBelow;
    BridgeFacets(rs.bridge);
    assert exists n :: AtsBelow(rs.hist, n) by {
      hide HistOK, ExchangesOK;
    }
    hide DispOK;
  }

  lemma BridgeFacets(b: B.State)
    requires B.Inv(b)
    ensures b.processed <= b.asked && (B.Short(b) ==> b.read <= b.answers)
  {
    hide B.Conversation, B.WayIn;
  }

  lemma RequestWasServed(env: Env, s: State, r: RunId, x: Exchange)
    requires env.Sound() && Core(env, s) && Keyed(s) && r in s.runs && s.pool.lease[r] in s.conns
    requires ExchangeOK(env, r, x, LeasedTo(s, r)) && x.at.Some?
    requires OpFor(env.parse(x.body)).Some?
    requires env.parse(x.body).CallOf? ==> env.allow(r, env.parse(x.body).func)
    ensures Asked(env, s, r, OpFor(env.parse(x.body)).value, x.at.value, x.resp)
  {
    hide PL.Inv, RunOK, MutexOK, Core;
    var w, op, at := s.pool.lease[r], OpFor(env.parse(x.body)).value, x.at.value;
    WorkerFacts(env, s, w);
    ServedFacts(env, s, w);
    hide WorkerOK, S.Fits, S.Lockstep;
    if s.conns[w].returned[at].Some? {
      ReturnedParses(env, s.conns[w], at);
      assert WorkerServed(s, w, at, r, op, s.conns[w].returned[at].value);
    } else {
      ReturnedNothing(env, s.conns[w], at, op);
      assert NoReplyTo(env, s, w, at, r, op);
    }
  }

  lemma ReturnedParses(env: Env, c: S.Conn, n: nat)
    requires env.Sound() && S.Explained(env.codec, c) && S.Histories(c)
    requires n < |c.returned| && c.returned[n].Some?
    ensures env.codec.Parses(c.returned[n].value)
  {
  }

  lemma ReturnedNothing(env: Env, c: S.Conn, n: nat, op: Op)
    requires env.Sound() && S.Explained(env.codec, c) && S.Histories(c)
    requires n < |c.returned| && c.returned[n].None? && n < |c.begun| && OpOf(c.begun[n]) == op
    ensures c.py.Exited? || Unparsed(env, c, n, op)
  {
    if !c.py.Exited? {
      assert Answers(c.served[n].0, c.served[n].1);
    }
  }

  // The worker requests behind a Run's successive responses come in the order of
  // the frames.
  lemma InOrder(env: Env, s: State, r: RunId)
    requires env.Sound() && Reachable(env, s) && r in s.runs
    ensures var rs := s.runs[r];
            && rs.bridge.processed <= rs.bridge.asked
            && rs.stdout == TextsOf(env, rs.bridge.processed)
            && |rs.hist| == |rs.bridge.processed|
            && forall i, j | 0 <= i < j < |rs.hist| && rs.hist[i].at.Some? && rs.hist[j].at.Some? ::
                 rs.hist[i].at.value < rs.hist[j].at.value
  {
    hide RunOK, PL.Inv, WorkersOK, RunsOK, MutexOK, ExchangesOK;
    ReachableInv(env, s);
    RunIsOK(env, s, r);
    RunFacets(env, r, s.runs[r], LeasedTo(s, r));
    var n :| AtsBelow(s.runs[r].hist, n);
  }

  function Joined(texts: seq<string>): string {
    if texts == [] then "" else Joined(texts[..|texts| - 1]) + texts[|texts| - 1]
  }

  // `at` are the sentinels among the frames, in order, and `texts` their payloads.
  ghost predicate SentinelsAt(env: Env, bodies: seq<bytes>, at: seq<nat>, texts: seq<string>) {
    && |at| == |texts|
    && (forall i, j | 0 <= i < j < |at| :: at[i] < at[j])
    && (forall i | 0 <= i < |bodies| :: env.parse(bodies[i]).Sentinel? <==> i in at)
    && (forall i | 0 <= i < |at| :: at[i] < |bodies| && env.parse(bodies[at[i]]) == Sentinel(texts[i]))
  }

  lemma {:induction false} SentinelTexts(env: Env, bodies: seq<bytes>, at: seq<nat>, texts: seq<string>)
    requires SentinelsAt(env, bodies, at, texts)
    ensures TextsOf(env, bodies) == Joined(texts)
    decreases |bodies|
  {
    if bodies == [] {
      NoSentinels(env, at, texts);
    } else {
      var m := |bodies| - 1;
      if env.parse(bodies[m]).Sentinel? {
        LastSentinel(env, bodies, at, texts);
        hide SentinelsAt;
        SentinelTexts(env, bodies[..m], at[..|at| - 1], texts[..|at| - 1]);
      } else {
        NotSentinel(env, bodies, at, texts);
        hide SentinelsAt;
        SentinelTexts(env, bodies[..m], at, texts);
      }
    }
  }

  lemma SentinelBelow(env: Env, bodies: seq<bytes>, at: seq<nat>, texts: seq<string>, i: nat)
    requires SentinelsAt(env, bodies, at, texts) && i < |at|
    ensures at[i] < |bodies|
  {
  }

  lemma NoSentinels(env: Env, at: seq<nat>, texts: seq<string>)
    requires SentinelsAt(env, [], at, texts)
    ensures texts == []
  {
    assert |at| == |texts|;
    hide SentinelsAt;
    if at != [] {
      SentinelBelow(env, [], at, texts, 0);
    }
  }

  lemma NotSentinel(env: Env, bodies: seq<bytes>, at: seq<nat>, texts: seq<string>)
    requires SentinelsAt(env, bodies, at, texts) && bodies != [] && !env.parse(bodies[|bodies| - 1]).Sentinel?
    ensures SentinelsAt(env, bodies[..|bodies| - 1], at, texts)
  {
    assert forall i | 0 <= i < |at| :: at[i] in at;
  }

  lemma LastSentinel(env: Env, bodies: seq<bytes>, at: seq<nat>, texts: seq<string>)
    requires SentinelsAt(env, bodies, at, texts) && bodies != [] && env.parse(bodies[|bodies| - 1]).Sentinel?
    ensures at != [] && |texts| == |at| && at[|at| - 1] == |bodies| - 1
    ensures env.parse(bodies[|bodies| - 1]) == Sentinel(texts[|at| - 1])
    ensures SentinelsAt(env, bodies[..|bodies| - 1], at[..|at| - 1], texts[..|at| - 1])
  {
    var m, n := |bodies| - 1, |at| - 1;
    var i :| 0 <= i < |at| && at[i] == m;
    assert i == n;
    assert at == at[..n] + [m];
  }

  // The captured stdout is exactly the sentinels' payloads, in the order of the
  // frames: each answered sentinel adds its own and no other frame adds anything.
  lemma Captured(env: Env, s: State, r: RunId, at: seq<nat>, texts: seq<string>)
    requires env.Sound() && Reachable(env, s) && r in s.runs
    requires SentinelsAt(env, s.runs[r].bridge.processed, at, texts)
    ensures s.runs[r].stdout == Joined(texts)
  {
    hide Reachable, SentinelsAt;
    InOrder(env, s, r);
    SentinelTexts(env, s.runs[r].bridge.processed, at, texts);
  }

  lemma AnswerCaptures(env: Env, s: State, r: RunId, resp: Response, at: Option<nat>)
    requires r in s.runs && RespondIn(env, s, r, resp, at).Some?
    ensures var b, t := s.runs[r].bridge.goro.body, RespondIn(env, s, r, resp, at).value;
            && t.runs[r].bridge.processed == s.runs[r].bridge.processed + [b]
            && t.runs[r].stdout ==
               s.runs[r].stdout + (if env.parse(b).Sentinel? then env.parse(b).text else "")
            && t.runs.Keys == s.runs.Keys && forall q <- s.runs :: q != r ==> t.runs[q] == s.runs[q]
  {
  }

  // Nothing forbidden reaches a worker, and what reaches it is one Run at a time:
  // the requests it has served are the pool's log of it in order, each call was
  // allowed by the filter of the Run that made it, and each Run's requests are
  // contiguous.
  lemma WorkersSeeOneRunAtATime(env: Env, s: State, w: Wid)
    requires env.Sound() && Reachable(env, s) && w in s.conns
    ensures w in s.pool.log
    ensures var l := s.pool.log[w];
            && |s.conns[w].served| <= |l|
            && (forall i | 0 <= i < |s.conns[w].served| :: OpOf(s.conns[w].served[i].0) == l[i].op)
            && (forall i | 0 <= i < |l| && l[i].op.OpCall? :: l[i].who.ByRun? && env.allow(l[i].who.r, l[i].op.func))
            && (forall i, j, k | 0 <= i <= j <= k < |l| && l[i].who == l[k].who :: l[j].who == l[i].who)
            && (forall i | 0 <= i < |l| - 1 :: !l[i].op.OpShutdown?)
  {
    ReachableInv(env, s);
    WorkerFacts(env, s, w);
    assert PL.Contiguous(s.pool.log[w]) && PL.Framed(s.pool.log[w]);
    hide Core, P.Owned, PL.LogsOwned, PL.StopsMatch, PL.Issues;
  }

  // The mutexes of workers are never contended: whoever is about to lock one
  // finds it free.
  lemma MutexUncontended(env: Env, s: State)
    requires env.Sound() && Reachable(env, s)
    ensures forall r | r in s.pool.agents && (s.pool.agents[r].Taken? || s.pool.agents[r].MustStop?) ::
              s.pool.agents[r].w in s.conns && s.conns[s.pool.agents[r].w].host.Free?
    ensures forall r | Asking(s, r) :: s.pool.agents[r].w in s.conns && s.conns[s.pool.agents[r].w].host.Free?
    ensures s.pool.closer.CloserHas? ==> s.pool.closer.w in s.conns && s.conns[s.pool.closer.w].host.Free?
  {
    hide PL.Inv, WorkerOK, RunOK, Reachable, WorkersOK, RunsOK;
    ReachableInv(env, s);
    forall r | r in s.pool.agents ensures TurnOK(s, r, s.pool.agents[r]) {
    }
  }

  // The shared probe cache always agrees with the workers, whatever Runs miss and
  // store at the same time.
  lemma CacheAgrees(env: Env, s: State, t: string)
    requires env.Sound() && Reachable(env, s) && t in s.cache
    ensures s.cache[t] == env.probe(t)
  {
    ReachableInv(env, s);
    hide PL.Inv, RunOK, WorkerOK;
  }
}
