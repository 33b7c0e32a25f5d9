/** What holds over whole runs of one worker connection. */
module SocketRuns {
  import opened Framing
  import opened Wrappers
  import opened Messages
  import opened Socket

  lemma {:induction false} InvRun(cd: Codec, c: Conn, es: seq<Event>)
    requires cd.Sound() && Inv(cd, c) && Run(cd, c, es).Some?
    ensures Inv(cd, Run(cd, c, es).value)
    decreases |es|
  {
    if es != [] {
      InvNext(cd, c, es[0]);
      InvRun(cd, Next(cd, c, es[0]).value, es[1..]);
    }
  }

  lemma {:induction false} RunConcat(cd: Codec, c: Conn, es: seq<Event>, fs: seq<Event>)
    requires Run(cd, c, es).Some?
    ensures Run(cd, c, es + fs) == Run(cd, Run(cd, c, es).value, fs)
    decreases |es|
  {
    hide Next;
    if es == [] {
      assert es + fs == fs;
    } else {
      RunConcat(cd, Next(cd, c, es[0]).value, es[1..], fs);
      assert (es + fs)[1..] == es[1..] + fs;
    }
  }

  predicate HasId(q: Request) { q.Probe? || q.Call? }

  predicate Echoes(p: Reply, id: ReqId) {
    (p.ProbeResult? || p.Result? || p.Error?) && p.id == id
  }

  // Call never looks at the reply's id. It need not: while replies are at most
  // 16 MiB, in every run, crashes included, what the i-th request returns is the
  // worker's answer to the i-th request, ids agree. While the worker process lives
  // a request returns its answer if and only if the host can parse it, and nothing
  // otherwise; and with the mutex free both directions of the socket are then empty.
  lemma OwnAnswers(cd: Codec, es: seq<Event>)
    requires cd.Sound() && Run(cd, FRESH, es).Some?
    requires Fits(cd, Run(cd, FRESH, es).value)
    ensures var c := Run(cd, FRESH, es).value;
            && (forall i | 0 <= i < |c.returned| && c.returned[i].Some? ::
                  i < |c.served| <= |c.begun| && c.served[i] == (c.begun[i], c.returned[i].value)
                  && Answers(c.begun[i], c.returned[i].value)
                  && (HasId(c.begun[i]) ==> Echoes(c.returned[i].value, c.begun[i].id)))
            && (!c.py.Exited? ==> |c.returned| <= |c.served| && forall i | 0 <= i < |c.returned| ::
                  c.returned[i] == if cd.Parses(c.served[i].1) then Some(c.served[i].1) else None)
            && (c.host.Free? && !c.py.Exited? ==>
                  c.toWorker == [] && c.toHost == [] && c.py == Receiving([]) && |c.served| == |c.begun|)
  {
    InvFresh(cd);
    InvRun(cd, FRESH, es);
    var c := Run(cd, FRESH, es).value;
    if !c.py.Exited? {
      Living(cd, c);
    }
  }

  lemma Living(cd: Codec, c: Conn)
    requires cd.Sound() && Explained(cd, c) && !c.py.Exited?
    ensures |c.returned| <= |c.served|
    ensures forall i | 0 <= i < |c.returned| ::
              c.returned[i] == if cd.Parses(c.served[i].1) then Some(c.served[i].1) else None
  {
    if |c.returned| > 0 {
      var last := c.returned[|c.returned| - 1];
      assert last.None? || last.Some?;
    }
  }

  function NumberedIn(qs: seq<Request>): nat {
    if qs == [] then 0 else NumberedIn(qs[..|qs| - 1]) + if HasId(qs[|qs| - 1]) then 1 else 0
  }

  // How many of them there are up to the i-th request.
  function NumberedUpTo(qs: seq<Request>, i: nat): nat
    requires i < |qs|
  {
    NumberedIn(qs[..i + 1])
  }

  // Probes and calls are numbered one after the other, pings not counted, modulo 2^64.
  ghost predicate Counted(seqNo: ReqId, qs: seq<Request>) {
    && seqNo == NumberedIn(qs) % U64
    && (forall i | 0 <= i < |qs| && HasId(qs[i]) :: qs[i].id == NumberedUpTo(qs, i) % U64)
  }

  lemma CountedNext(cd: Codec, c: Conn, e: Event)
    requires Counted(c.seqNo, c.begun) && Next(cd, c, e).Some?
    ensures Counted(Next(cd, c, e).value.seqNo, Next(cd, c, e).value.begun)
  {
    hide Counted, NumberedIn;
    if e.Lock? {
      OneMoreCounted(c.seqNo, c.begun, RequestOf(e.op, NextId(c.seqNo)));
    } else {
      OnlyLockBegins(cd, c, e);
      hide Next;
    }
  }

  lemma OnlyLockBegins(cd: Codec, c: Conn, e: Event)
    requires Next(cd, c, e).Some? && !e.Lock?
    ensures Next(cd, c, e).value.begun == c.begun && Next(cd, c, e).value.seqNo == c.seqNo
  {
  }

  lemma SamePrefix(qs: seq<Request>, q: Request, i: nat)
    requires i < |qs|
    ensures NumberedUpTo(qs + [q], i) == NumberedUpTo(qs, i)
  {
    assert (qs + [q])[..i + 1] == qs[..i + 1];
  }

  lemma OneMoreCounted(seqNo: ReqId, qs: seq<Request>, q: Request)
    requires Counted(seqNo, qs) && (HasId(q) ==> q.id == NextId(seqNo))
    ensures Counted(if HasId(q) then NextId(seqNo) else seqNo, qs + [q])
  {
    var n, all := |qs|, qs + [q];
    assert all[..n] == qs && all[..n + 1] == all;
    assert NumberedUpTo(all, n) == NumberedIn(all);
    assert NumberedIn(all) == NumberedIn(qs) + if HasId(q) then 1 else 0;
    hide NumberedIn, NumberedUpTo;
    forall i | 0 <= i < |all| && HasId(all[i]) ensures all[i].id == NumberedUpTo(all, i) % U64 {
      if i < n {
        SamePrefix(qs, q, i);
        assert all[i] == qs[i];
      }
    }
  }

  lemma {:induction false} CountedRun(cd: Codec, c: Conn, es: seq<Event>)
    requires Counted(c.seqNo, c.begun) && Run(cd, c, es).Some?
    ensures Counted(Run(cd, c, es).value.seqNo, Run(cd, c, es).value.begun)
    decreases |es|
  {
    hide Next, Counted;
    if es != [] {
      CountedNext(cd, c, es[0]);
      CountedRun(cd, Next(cd, c, es[0]).value, es[1..]);
    }
  }

  // Request i of a worker, if it has a number, has the number of such requests so
  // far; so within 2^64 of them no two have the same.
  lemma RequestIds(cd: Codec, es: seq<Event>, i: nat)
    requires Run(cd, FRESH, es).Some?
    requires var qs := Run(cd, FRESH, es).value.begun; i < |qs| && HasId(qs[i])
    ensures var qs := Run(cd, FRESH, es).value.begun; qs[i].id == NumberedUpTo(qs, i) % U64
  {
    hide Next;
    CountedRun(cd, FRESH, es);
  }

  // A shutdown is the last request a worker executes, and it exits once the reply
  // is sent.
  ghost predicate EndsWithShutdown(c: Conn) {
    forall i | 0 <= i < |c.served| && c.served[i].0.Shutdown? ::
      i == |c.served| - 1 && (c.py.Exited? || c.py.Replying?)
  }

  lemma {:induction false} ShutdownEnds(cd: Codec, c: Conn, es: seq<Event>)
    requires EndsWithShutdown(c) && Run(cd, c, es).Some?
    ensures EndsWithShutdown(Run(cd, c, es).value)
    decreases |es|
  {
    if es != [] {
      ShutdownEndsNext(cd, c, es[0]);
      hide Next, EndsWithShutdown;
      ShutdownEnds(cd, Next(cd, c, es[0]).value, es[1..]);
    }
  }

  lemma ShutdownEndsNext(cd: Codec, c: Conn, e: Event)
    requires EndsWithShutdown(c) && Next(cd, c, e).Some?
    ensures EndsWithShutdown(Next(cd, c, e).value)
  {
    hide Frame, Want, PackU32, UnpackU32, Answers;
  }

  // The 16 MiB bound is exact. When the host returns from a request that a living
  // worker has answered, the socket is clean if and only if the reply fitted; if
  // it did not, the whole body of the reply is still in the socket.
  lemma CleanIffFits(cd: Codec, c: Conn, e: Event)
    requires cd.Sound() && Histories(c) && Lockstep(cd, c)
    requires c.host.Busy? && !c.host.req.Shutdown? && |c.served| == |c.begun| && !c.py.Exited?
    requires Next(cd, c, e).Some? && Next(cd, c, e).value.host.Free?
    ensures var d := Next(cd, c, e).value;
            var p := c.served[|c.begun| - 1].1;
            var unsent := if d.py.Replying? then d.py.left else [];
            && (d.toHost + unsent == [] <==> |cd.encRep(p)| <= SOCKET_LIMIT)
            && (|cd.encRep(p)| > SOCKET_LIMIT ==>
                  d.toHost + unsent == cd.encRep(p) && d.returned == c.returned + [None])
            && (|cd.encRep(p)| <= SOCKET_LIMIT ==>
                  d.returned == c.returned + [if cd.Parses(p) then Some(p) else None])
  {
    var p := c.served[|c.begun| - 1].1;
    var f := Frame(cd.encRep(p));
    FrameHeader(cd.encRep(p));
    var rest := ReadsOwnReply(cd, c);
    WantWithinFrame(c.host.got, rest, cd.encRep(p));
    var d := Next(cd, c, e).value;
    var unsent := if d.py.Replying? then d.py.left else [];
    assert c.host.got + (c.toHost + unsent) == f by {
      assert c.host.got + c.toHost + unsent == c.host.got + (c.toHost + unsent);
      if unsent == [] {
        assert c.host.got + c.toHost + [] == c.host.got + c.toHost;
      }
    }
    assert c.toHost + unsent == f[|c.host.got|..];
  }

  // ---------------------------------------------------------------- progress

  // While a request is open and the worker answers what it executes, the host or
  // the worker can move without anything failing.
  lemma RequestProgress(cd: Codec, c: Conn, reply: Reply) returns (e: Event)
    requires cd.Sound() && Fits(cd, c) && Histories(c) && Lockstep(cd, c) && c.host.Busy?
    requires c.py.Executing? ==> Answers(c.py.req, reply) && |cd.encRep(reply)| < U32
    ensures Next(cd, c, e).Some? && !e.Crash? && (e.PyReply? ==> e.reply == reply)
  {
    if Outbound(cd, c) {
      e := OutboundProgress(cd, c, reply);
    } else {
      e := InboundProgress(cd, c);
    }
  }

  lemma OutboundProgress(cd: Codec, c: Conn, reply: Reply) returns (e: Event)
    requires cd.Sound() && c.host.Busy? && Outbound(cd, c)
    requires c.py.Executing? ==> Answers(c.py.req, reply) && |cd.encRep(reply)| < U32
    ensures Next(cd, c, e).Some? && !e.Crash? && (e.PyReply? ==> e.reply == reply)
  {
    match c.py
    case Executing(_) => e := PyReply(reply);
    case Exited => e := if c.host.left != [] then SendFails else RecvFails;
    case Receiving(g) =>
      var rest := c.toWorker + c.host.left;
      assert g + rest == g + c.toWorker + c.host.left;
      WantWithinFrame(g, rest, cd.encReq(c.host.req));
      e := if TooLong(g) then PyRefuse
           else if c.toWorker != [] then PyRecv(1)
           else if c.host.left != [] then Send(1)
           else PyParse;
  }

  lemma InboundProgress(cd: Codec, c: Conn) returns (e: Event)
    requires cd.Sound() && Histories(c) && c.host.Busy? && Inbound(cd, c)
    ensures Next(cd, c, e).Some? && !e.Crash? && !e.PyReply?
  {
    var rest := ReadsOwnReply(cd, c);
    WantWithinFrame(c.host.got, rest, cd.encRep(c.served[|c.begun| - 1].1));
    e := if TooLong(c.host.got) then Refuse
         else if rest == [] then Finish
         else if c.toHost != [] then Recv(1)
         else if c.py.Replying? then PySend(1)
         else RecvFails;
  }

  // Distance to the end of the open request: phase, then bytes still to move.
  ghost function Rank(c: Conn): (nat, nat)
    requires c.host.Busy?
  {
    match c.py
    case Receiving(g) => if c.host.left == [] && c.toWorker == [] && g == [] then (1, |c.toHost|)
                         else (3, 2 * |c.host.left| + |c.toWorker|)
    case Executing(_) => (2, 0)
    case Replying(l) => (1, 2 * |l| + |c.toHost|)
    case Exited => (0, |c.host.left| + |c.toHost|)
  }

  // Whatever happens next, a crash included, the open request gets closer to its
  // end or ends: no schedule keeps the host inside the mutex for ever.
  lemma RequestStep(cd: Codec, c: Conn, e: Event)
    requires cd.Sound() && Histories(c) && Lockstep(cd, c) && c.host.Busy?
    requires Next(cd, c, e).Some?
    ensures var d := Next(cd, c, e).value;
            !d.host.Busy? || Rank(d).0 < Rank(c).0 || (Rank(d).0 == Rank(c).0 && Rank(d).1 < Rank(c).1)
  {
  }

  // ---------------------------------------------------------------- no failure

  // All requests fit the worker's reader, and none is a shutdown.
  ghost predicate Modest(cd: Codec, c: Conn) {
    forall q <- c.begun :: !q.Shutdown? && |cd.encReq(q)| <= SOCKET_LIMIT
  }

  // A worker process that does not crash goes on living.
  lemma AliveNext(cd: Codec, c: Conn, e: Event)
    requires cd.Sound() && Histories(c) && Lockstep(cd, c) && Modest(cd, c) && !c.py.Exited?
    requires Next(cd, c, e).Some? && !e.Crash?
    ensures !Next(cd, c, e).value.py.Exited?
  {
    if c.host.Busy? && c.py.Receiving? && Outbound(cd, c) {
      var rest, m := c.toWorker + c.host.left, cd.encReq(c.host.req);
      assert c.py.got + rest == c.py.got + c.toWorker + c.host.left;
      assert c.host.req in c.begun;
      WantWithinFrame(c.py.got, rest, m);
      FrameHeader(m);
    } else if c.host.Busy? && c.py.Replying? {
      assert c.served[|c.served| - 1].0 in c.begun;
    }
    hide Frame, UnpackU32, PackU32, Fits, Modest;
  }

  lemma {:induction false} HistoriesGrow(cd: Codec, c: Conn, es: seq<Event>)
    requires Run(cd, c, es).Some?
    ensures c.begun <= Run(cd, c, es).value.begun && c.served <= Run(cd, c, es).value.served
    decreases |es|
  {
    if es != [] {
      var d := Next(cd, c, es[0]).value;
      assert c.begun <= d.begun && c.served <= d.served;
      hide Next;
      HistoriesGrow(cd, d, es[1..]);
    }
  }

  lemma FitsEarlier(cd: Codec, c: Conn, d: Conn)
    requires c.begun <= d.begun && c.served <= d.served
    ensures Fits(cd, d) ==> Fits(cd, c)
    ensures Modest(cd, d) ==> Modest(cd, c)
  {
    assert forall i | 0 <= i < |c.served| :: c.served[i] == d.served[i];
    assert forall i | 0 <= i < |c.begun| :: c.begun[i] == d.begun[i];
  }

  lemma {:induction false} AliveRun(cd: Codec, c: Conn, es: seq<Event>)
    requires cd.Sound() && Inv(cd, c) && !c.py.Exited? && Run(cd, c, es).Some? && Crash !in es
    requires Fits(cd, Run(cd, c, es).value) && Modest(cd, Run(cd, c, es).value)
    ensures !Run(cd, c, es).value.py.Exited?
    decreases |es|
  {
    hide Next, Histories, Lockstep, Fits, Modest, Explained;
    if es != [] {
      HistoriesGrow(cd, c, es);
      FitsEarlier(cd, c, Run(cd, c, es).value);
      AliveNext(cd, c, es[0]);
      InvNext(cd, c, es[0]);
      AliveRun(cd, Next(cd, c, es[0]).value, es[1..]);
    }
  }

  // With no crash, and requests and replies of at most 16 MiB, every request
  // returns its answer if the host can parse it, and nothing otherwise.
  lemma EveryRequestAnswered(cd: Codec, es: seq<Event>)
    requires cd.Sound() && Run(cd, FRESH, es).Some? && Crash !in es
    requires Fits(cd, Run(cd, FRESH, es).value) && Modest(cd, Run(cd, FRESH, es).value)
    ensures var c := Run(cd, FRESH, es).value;
            && |c.returned| <= |c.served|
            && forall i | 0 <= i < |c.returned| ::
                 c.returned[i] == if cd.Parses(c.served[i].1) then Some(c.served[i].1) else None
  {
    hide Next, Histories, Lockstep, Fits, Modest;
    InvFresh(cd);
    AliveRun(cd, FRESH, es);
    OwnAnswers(cd, es);
  }

  // An open request that the worker can answer runs to its answer.
  lemma {:induction false} RequestCompletes(cd: Codec, c: Conn, reply: Reply) returns (es: seq<Event>)
    requires cd.Sound() && Fits(cd, c) && Histories(c) && Lockstep(cd, c) && Modest(cd, c)
    requires c.host.Busy? && !c.py.Exited?
    requires Answers(c.host.req, reply) && |cd.encRep(reply)| <= SOCKET_LIMIT
    ensures Run(cd, c, es).Some?
    ensures var d := Run(cd, c, es).value;
            d.host.Free? && !d.py.Exited? && d.begun == c.begun && Fits(cd, d) && Histories(d)
    ensures forall e <- es :: !e.Lock? && !e.Crash? && (e.PyReply? ==> e.reply == reply)
    decreases Rank(c).0, Rank(c).1
  {
    var e := RequestProgress(cd, c, reply);
    var d := Next(cd, c, e).value;
    RequestStep(cd, c, e);
    AliveNext(cd, c, e);
    Onward(cd, c, e, reply);
    hide Next, Histories, Lockstep, Fits, Modest, Rank;
    if d.host.Busy? {
      var rest := RequestCompletes(cd, d, reply);
      es := [e] + rest;
      assert es[1..] == rest;
    } else {
      es := [e];
      assert Run(cd, d, es[1..]) == Some(d);
    }
  }

  lemma Onward(cd: Codec, c: Conn, e: Event, reply: Reply)
    requires cd.Sound() && Fits(cd, c) && Histories(c) && Lockstep(cd, c) && Modest(cd, c)
    requires c.host.Busy? && !c.py.Exited? && Next(cd, c, e).Some? && !e.Crash?
    requires (e.PyReply? ==> e.reply == reply) && |cd.encRep(reply)| <= SOCKET_LIMIT
    ensures var d := Next(cd, c, e).value;
            && Fits(cd, d) && Histories(d) && Lockstep(cd, d) && Modest(cd, d) && d.begun == c.begun
            && !e.Lock? && !d.host.Closed? && (d.host.Busy? ==> d.host.req == c.host.req)
  {
    StepKeeps(cd, c, e);
    assert c.host.req in c.begun;
    hide Lockstep, Histories;
  }
}
