/** Whole exchanges with a worker as runs of the system: what a worker that answers,
    or one that is gone, makes of an open request. */
module SystemExchange {
  import opened Framing
  import opened Wrappers
  import opened Messages
  import opened System
  import opened SystemInv
  import S = Socket
  import SR = SocketRuns

  lemma {:induction false} RunConcat(env: Env, s: State, es: seq<Event>, fs: seq<Event>)
    requires Run(env, s, es).Some?
    ensures Run(env, s, es + fs) == Run(env, Run(env, s, es).value, fs)
    decreases |es|
  {
    hide Next;
    if es == [] {
      assert es + fs == fs;
    } else {
      RunConcat(env, Next(env, s, es[0]).value, es[1..], fs);
      assert (es + fs)[1..] == es[1..] + fs;
    }
  }

  lemma OneMore(env: Env, s: State, e: Event, t: State)
    requires Next(env, s, e) == Some(t)
    ensures Run(env, s, [e]) == Some(t)
  {
    hide Next;
    assert Run(env, t, [e][1..]) == Some(t);
  }

  lemma Cons(env: Env, s: State, e: Event, t: State, es: seq<Event>)
    requires Next(env, s, e) == Some(t)
    ensures Run(env, s, [e] + es) == Run(env, t, es)
  {
    hide Next;
    assert ([e] + es)[1..] == es;
  }

  // A connection whose worker lives and can be asked.
  ghost predicate Healthy(cd: Codec, c: S.Conn) {
    S.Fits(cd, c) && S.Histories(c) && S.Lockstep(cd, c) && S.Explained(cd, c) && SR.Modest(cd, c) && !c.py.Exited?
  }

  // The reply is one the system's hypotheses allow to this request.
  predicate AllowedTo(env: Env, q: Request, reply: Reply) {
    && Answers(q, reply) && |env.codec.encRep(reply)| <= SOCKET_LIMIT
    && (q.Probe? && reply.ProbeResult? ==> ProbeInfo(reply.isModule, reply.isCallable) == env.probe(q.target))
  }

  function WithConn(s: State, w: Wid, d: S.Conn): State { s.(conns := s.conns[w := d]) }

  // One step of the exchange.
  lemma ExchangeStep(env: Env, c: S.Conn, reply: Reply) returns (e: S.Event)
    requires env.Sound() && Healthy(env.codec, c) && c.host.Busy? && AllowedTo(env, c.host.req, reply)
    ensures S.Next(env.codec, c, e).Some? && !e.Lock? && !e.Crash? && ReplyAllowed(env, c, e)
    ensures e.PyReply? ==> e.reply == reply
    ensures var d := S.Next(env.codec, c, e).value;
            && Healthy(env.codec, d) && d.begun == c.begun && !d.host.Closed?
            && (d.host.Busy? ==> d.host.req == c.host.req)
            && (!d.host.Busy? || SR.Rank(d).0 < SR.Rank(c).0
                || (SR.Rank(d).0 == SR.Rank(c).0 && SR.Rank(d).1 < SR.Rank(c).1))
            && (d.served == c.served || d.served == c.served + [(c.host.req, reply)])
  {
    e := SR.RequestProgress(env.codec, c, reply);
    SR.RequestStep(env.codec, c, e);
    SR.AliveNext(env.codec, c, e);
    SR.Onward(env.codec, c, e, reply);
    S.ExplainedNext(env.codec, c, e);
    ServesReply(env.codec, c, e, reply);
    hide S.Fits, S.Histories, S.Explained, S.Lockstep, SR.Modest, SR.Rank;
  }

  // The worker executes the open request and no other.
  lemma ServesReply(cd: Codec, c: S.Conn, e: S.Event, reply: Reply)
    requires S.Histories(c) && S.Lockstep(cd, c) && c.host.Busy? && S.Next(cd, c, e).Some?
    requires e.PyReply? ==> e.reply == reply
    ensures e.PyReply? ==> c.py.Executing? && c.py.req == c.host.req
    ensures var d := S.Next(cd, c, e).value;
            d.served == c.served || d.served == c.served + [(c.host.req, reply)]
    ensures !e.Lock?
  {
  }

  // Steps of one worker's connection, none of them a crash.
  predicate OnlySocket(es: seq<Event>, w: Wid) {
    forall e <- es :: e.SocketStep? && e.w == w && !e.se.Crash? && !e.se.Lock?
  }

  // The open request runs to its return; all served from the n-th on is the reply.
  lemma {:induction false} ExchangeRuns(env: Env, s: State, w: Wid, reply: Reply, n: nat)
    returns (es: seq<Event>, d: S.Conn)
    requires env.Sound() && w in s.conns && Healthy(env.codec, s.conns[w])
    requires s.conns[w].host.Busy? && AllowedTo(env, s.conns[w].host.req, reply)
    requires forall i | n <= i < |s.conns[w].served| :: s.conns[w].served[i].1 == reply
    ensures Run(env, s, es) == Some(WithConn(s, w, d)) && OnlySocket(es, w)
    ensures Healthy(env.codec, d) && d.host.Free? && d.begun == s.conns[w].begun
    ensures forall i | n <= i < |d.served| :: d.served[i].1 == reply
    decreases SR.Rank(s.conns[w]).0, SR.Rank(s.conns[w]).1
  {
    hide Next, Healthy, AllowedTo, SR.Rank, OnlySocket;
    var e, d1 := ExchangeMoves(env, s, w, reply, n);
    var t := WithConn(s, w, d1);
    if d1.host.Busy? {
      var rest;
      rest, d := ExchangeRuns(env, t, w, reply, n);
      es := [e] + rest;
      Cons(env, s, e, t, rest);
      OnlyMore(e, rest, w);
      assert WithConn(t, w, d) == WithConn(s, w, d) by {
        assert t.conns[w := d] == s.conns[w := d];
      }
    } else {
      d := d1;
      es := [e] + [];
      Cons(env, s, e, t, []);
      OnlyMore(e, [], w);
    }
  }

  lemma OnlyMore(e: Event, es: seq<Event>, w: Wid)
    requires OnlySocket([e], w)
    ensures OnlySocket([], w) && (OnlySocket(es, w) ==> OnlySocket([e] + es, w))
  {
    assert e in [e];
  }

  lemma ExchangeMoves(env: Env, s: State, w: Wid, reply: Reply, n: nat) returns (e: Event, d: S.Conn)
    requires env.Sound() && w in s.conns && Healthy(env.codec, s.conns[w])
    requires s.conns[w].host.Busy? && AllowedTo(env, s.conns[w].host.req, reply)
    requires forall i | n <= i < |s.conns[w].served| :: s.conns[w].served[i].1 == reply
    ensures Next(env, s, e) == Some(WithConn(s, w, d)) && OnlySocket([e], w)
    ensures var c := s.conns[w];
            && Healthy(env.codec, d) && d.begun == c.begun && !d.host.Closed?
            && (d.host.Busy? ==> d.host.req == c.host.req)
            && (!d.host.Busy? || SR.Rank(d).0 < SR.Rank(c).0
                || (SR.Rank(d).0 == SR.Rank(c).0 && SR.Rank(d).1 < SR.Rank(c).1))
    ensures forall i | n <= i < |d.served| :: d.served[i].1 == reply
  {
    var c := s.conns[w];
    var se := ExchangeStep(env, c, reply);
    hide Healthy, AllowedTo, SR.Rank, S.Next, ReplyAllowed;
    d := S.Next(env.codec, c, se).value;
    e := SocketStep(w, se);
  }

  // A living worker's answer to a request just sent comes back: as itself if the
  // host can parse it, as nothing otherwise.
  lemma Answered(env: Env, s: State, w: Wid, reply: Reply) returns (es: seq<Event>, d: S.Conn)
    requires env.Sound() && w in s.conns && Healthy(env.codec, s.conns[w])
    requires s.conns[w].host.Busy? && AllowedTo(env, s.conns[w].host.req, reply)
    requires |s.conns[w].served| < |s.conns[w].begun|
    ensures Run(env, s, es) == Some(WithConn(s, w, d)) && OnlySocket(es, w)
    ensures Healthy(env.codec, d) && d.host.Free? && d.begun == s.conns[w].begun && |d.returned| == |d.begun| >= 1
    ensures d.returned[|d.begun| - 1] == if env.codec.Parses(reply) then Some(reply) else None
  {
    es, d := ExchangeRuns(env, s, w, reply, |s.conns[w].served|);
    ReturnedLast(env.codec, d, |s.conns[w].served|, reply);
  }

  lemma ReturnedLast(cd: Codec, d: S.Conn, n: nat, reply: Reply)
    requires cd.Sound() && Healthy(cd, d) && d.host.Free? && n < |d.begun|
    requires forall i | n <= i < |d.served| :: d.served[i].1 == reply
    ensures |d.returned| == |d.begun|
    ensures d.returned[|d.begun| - 1] == if cd.Parses(reply) then Some(reply) else None
  {
  }

  // A request to a worker that is gone comes back empty-handed.
  lemma Unanswered(env: Env, s: State, w: Wid) returns (t: State)
    requires w in s.conns && s.conns[w].host.Busy? && !s.conns[w].host.req.Shutdown?
    requires s.conns[w].host.left != [] && s.conns[w].py.Exited?
    ensures Next(env, s, SocketStep(w, S.SendFails)) == Some(t)
    ensures t == WithConn(s, w, s.conns[w].(host := S.Free, returned := s.conns[w].returned + [None]))
  {
    t := WithConn(s, w, S.Return(s.conns[w], None));
  }
}
