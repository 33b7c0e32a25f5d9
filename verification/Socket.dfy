/** One worker connection: the host side of the Unix socket, driven under the
    worker's mutex, and the worker process's message loop, with both directions
    of the socket as byte buffers of limited size. */
module Socket {
  import opened Framing
  import opened Wrappers
  import opened Messages

  datatype Host =
    | Free                                        // mutex free
    | Busy(req: Request, left: bytes, got: bytes) // mutex held: still to write, read so far
    | Closed                                      // after Shutdown

  datatype Py =
    | Receiving(got: bytes)
    | Executing(req: Request)
    | Replying(left: bytes)
    | Exited

  datatype Conn = Conn(
    host: Host,
    toWorker: bytes,
    py: Py,
    toHost: bytes,
    seqNo: ReqId,                                 // reqSeq
    begun: seq<Request>,                          // requests the host started to send
    served: seq<(Request, Reply)>,                // requests the worker answered
    returned: seq<Option<Reply>>                  // what the host's calls returned
  )

  const FRESH := Conn(Free, [], Receiving([]), [], 0, [], [], [])

  datatype Event =
    | Lock(op: Op)            // take the mutex and start sending
    | Send(k: nat)            // the socket accepts k more bytes
    | SendFails               // the peer is gone
    | Recv(k: nat)            // a read returns k bytes
    | Refuse                  // reply header above 16 MiB: error, body left unread
    | RecvFails               // end of file before the reply is complete
    | Finish                  // reply complete: unlock and return it
    | PyRecv(k: nat)
    | PyRefuse                // request above 16 MiB: uncaught ValueError
    | PyParse                 // decode the request, or die on bad JSON
    | PyReply(reply: Reply)   // run the request and start sending the reply
    | PySend(k: nat)
    | Crash

  predicate TooLong(got: bytes) {
    |got| >= 4 && UnpackU32(got[..4]) > SOCKET_LIMIT
  }

  // A call returns `r`. Shutdown then closes the connection and kills the process.
  function Return(c: Conn, r: Option<Reply>): Conn
    requires c.host.Busy?
  {
    c.(host := if c.host.req.Shutdown? then Closed else Free,
       py := if c.host.req.Shutdown? then Exited else c.py,
       returned := c.returned + [r])
  }

  // Take the mutex, number the request, start to send it.
  function Locked(cd: Codec, c: Conn, op: Op): Option<Conn> {
    var id := NextId(c.seqNo);
    var q := RequestOf(op, id);
    if c.host.Free? && |cd.encReq(q)| < U32
    then Some(c.(host := Busy(q, Frame(cd.encReq(q)), []), begun := c.begun + [q],
                 seqNo := if Numbered(op) then id else c.seqNo))
    else None
  }

  function Next(cd: Codec, c: Conn, e: Event): Option<Conn> {
    match e
    case Lock(op) => Locked(cd, c, op)
    case Send(k) =>
      if c.host.Busy? && 1 <= k <= |c.host.left| && |c.toWorker| + k <= cd.window
      then Some(c.(host := c.host.(left := c.host.left[k..]), toWorker := c.toWorker + c.host.left[..k]))
      else None
    case SendFails =>
      if c.host.Busy? && c.host.left != [] && c.py.Exited? then Some(Return(c, None)) else None
    case Recv(k) =>
      if c.host.Busy? && c.host.left == [] && !TooLong(c.host.got)
         && 1 <= k <= |c.toHost| && k <= Want(c.host.got)
      then Some(c.(host := c.host.(got := c.host.got + c.toHost[..k]), toHost := c.toHost[k..]))
      else None
    case Refuse =>
      if c.host.Busy? && TooLong(c.host.got) then Some(Return(c, None)) else None
    case RecvFails =>
      if c.host.Busy? && c.host.left == [] && !TooLong(c.host.got) && Want(c.host.got) > 0
         && c.toHost == [] && c.py.Exited?
      then Some(Return(c, None))
      else None
    case Finish =>
      if c.host.Busy? && |c.host.got| >= 4 && !TooLong(c.host.got) && Want(c.host.got) == 0
      then Some(Return(c, cd.decRep(c.host.got[4..])))
      else None
    case PyRecv(k) =>
      if c.py.Receiving? && !TooLong(c.py.got) && 1 <= k <= |c.toWorker| && k <= Want(c.py.got)
      then Some(c.(py := Receiving(c.py.got + c.toWorker[..k]), toWorker := c.toWorker[k..]))
      else None
    case PyRefuse =>
      if c.py.Receiving? && TooLong(c.py.got) then Some(c.(py := Exited)) else None
    case PyParse =>
      if c.py.Receiving? && |c.py.got| >= 4 && !TooLong(c.py.got) && Want(c.py.got) == 0
      then match cd.decReq(c.py.got[4..])
           case Some(q) => Some(c.(py := Executing(q)))
           case None => Some(c.(py := Exited))
      else None
    case PyReply(p) =>
      if c.py.Executing? && Answers(c.py.req, p) && |cd.encRep(p)| < U32
      then Some(c.(py := Replying(Frame(cd.encRep(p))), served := c.served + [(c.py.req, p)]))
      else None
    case PySend(k) =>
      if c.py.Replying? && 1 <= k <= |c.py.left| && |c.toHost| + k <= cd.window
      then Some(c.(toHost := c.toHost + c.py.left[..k],
                   py := if k < |c.py.left| then Replying(c.py.left[k..])
                         else if c.served != [] && c.served[|c.served| - 1].0.Shutdown? then Exited
                         else Receiving([])))
      else None
    case Crash =>
      if !c.py.Exited? then Some(c.(py := Exited)) else None
  }

  function Run(cd: Codec, c: Conn, es: seq<Event>): Option<Conn>
    decreases |es|
  {
    if es == [] then Some(c)
    else match Next(cd, c, es[0])
         case None => None
         case Some(d) => Run(cd, d, es[1..])
  }

  // ---------------------------------------------------------------- invariant

  // Every reply so far fits the host's reader.
  ghost predicate Fits(cd: Codec, c: Conn) {
    forall i | 0 <= i < |c.served| :: |cd.encRep(c.served[i].1)| <= SOCKET_LIMIT
  }

  // The reply to the newest request, once there is one, fits.
  ghost predicate LastFits(cd: Codec, c: Conn) {
    |c.served| == |c.begun| >= 1 ==> |cd.encRep(c.served[|c.begun| - 1].1)| <= SOCKET_LIMIT
  }

  // The open request is unserved: its bytes are on their way to the worker, and
  // nothing is on its way back.
  ghost predicate Outbound(cd: Codec, c: Conn)
    requires c.host.Busy?
  {
    && c.host.got == [] && c.toHost == []
    && |cd.encReq(c.host.req)| < U32
    && match c.py
       case Receiving(g) => g + c.toWorker + c.host.left == Frame(cd.encReq(c.host.req))
       case Executing(q) => q == c.host.req && c.toWorker == [] && c.host.left == []
       case Replying(_) => false
       case Exited => true
  }

  // It has been served: the bytes of its own reply, and no others, are on their
  // way back.
  ghost predicate Inbound(cd: Codec, c: Conn)
    requires c.host.Busy?
  {
    && |c.served| == |c.begun| >= 1
    && c.host.left == []
    && var p := c.served[|c.begun| - 1].1;
    && |cd.encRep(p)| < U32
    && match c.py
       case Receiving(g) => g == [] && c.toWorker == [] && c.host.got + c.toHost == Frame(cd.encRep(p))
       case Executing(_) => false
       case Replying(l) => l != [] && c.toWorker == [] && c.host.got + c.toHost + l == Frame(cd.encRep(p))
       case Exited => c.host.got + c.toHost <= Frame(cd.encRep(p))
  }

  // Lockstep: with the mutex free the worker is at the top of its loop and both
  // directions are empty; with it held exactly one exchange is in progress.
  ghost predicate Lockstep(cd: Codec, c: Conn)
    requires c.host.Busy? ==> |c.begun| >= 1
  {
    match c.host
    case Free =>
      c.toHost == []
      && (c.py.Exited? || (c.py == Receiving([]) && c.toWorker == [] && |c.served| == |c.begun|))
    case Busy(_, _, _) =>
      || (Outbound(cd, c) && |c.served| < |c.begun| && (c.py.Exited? || |c.served| + 1 == |c.begun|))
      || Inbound(cd, c)
    case Closed => true
  }

  ghost predicate Histories(c: Conn) {
    && |c.served| <= |c.begun|
    && |c.begun| == |c.returned| + (if c.host.Busy? then 1 else 0)
    && (c.host.Busy? ==> c.host.req == c.begun[|c.returned|])
    && (forall i | 0 <= i < |c.served| :: c.served[i].0 == c.begun[i] && Answers(c.served[i].0, c.served[i].1))
    && (forall i | 0 <= i < |c.returned| && c.returned[i].Some? ::
          i < |c.served| && c.returned[i].value == c.served[i].1)
    && (c.host.Closed? ==> c.py.Exited?)
    && (c.host.Busy? && TooLong(c.host.got) ==> |c.host.got| == 4)
  }

  // What a request returns is the host's reading of the reply it was sent, unless
  // the worker process is gone.
  ghost predicate Explained(cd: Codec, c: Conn) {
    forall i | 0 <= i < |c.returned| ::
      || (c.returned[i].None? && c.py.Exited?)
      || (i < |c.served| && c.returned[i] == cd.decRep(cd.encRep(c.served[i].1)))
  }

  ghost predicate Inv(cd: Codec, c: Conn) {
    Fits(cd, c) ==> Histories(c) && Lockstep(cd, c) && Explained(cd, c)
  }

  lemma InvFresh(cd: Codec)
    ensures Inv(cd, FRESH)
  {
  }

  lemma FitsBefore(cd: Codec, c: Conn, e: Event)
    requires Next(cd, c, e).Some? && Fits(cd, Next(cd, c, e).value)
    ensures Fits(cd, c)
  {
    var d := Next(cd, c, e).value;
    assert c.served <= d.served;
    forall i | 0 <= i < |c.served| ensures |cd.encRep(c.served[i].1)| <= SOCKET_LIMIT {
      assert d.served[i] == c.served[i];
    }
  }

  lemma InvNext(cd: Codec, c: Conn, e: Event)
    requires cd.Sound() && Inv(cd, c) && Next(cd, c, e).Some?
    ensures Inv(cd, Next(cd, c, e).value)
  {
    if Fits(cd, Next(cd, c, e).value) {
      FitsBefore(cd, c, e);
      ExplainedNext(cd, c, e);
      StepKeeps(cd, c, e);
    }
  }

  lemma StepKeeps(cd: Codec, c: Conn, e: Event)
    requires cd.Sound() && Histories(c) && Lockstep(cd, c) && Next(cd, c, e).Some?
    requires e.Refuse? || e.Finish? ==> LastFits(cd, c)
    ensures Histories(Next(cd, c, e).value) && Lockstep(cd, Next(cd, c, e).value)
  {
    hide Histories, Lockstep;
    match e
    case Lock(op) => StepLock(cd, c, op);
    case Send(k) => StepSend(cd, c, k);
    case Recv(k) => StepRecv(cd, c, k);
    case Refuse => NeverRefuses(cd, c);
    case Finish => StepFinish(cd, c);
    case PyRecv(k) => StepPyRecv(cd, c, k);
    case PyParse => StepPyParse(cd, c);
    case PyReply(p) => StepPyReply(cd, c, p);
    case PySend(k) => StepPySend(cd, c, k);
    case _ => StepFailure(cd, c, e);
  }

  lemma ExplainedNext(cd: Codec, c: Conn, e: Event)
    requires cd.Sound() && Fits(cd, c) && Histories(c) && Lockstep(cd, c) && Explained(cd, c)
    requires Next(cd, c, e).Some?
    ensures Explained(cd, Next(cd, c, e).value)
  {
    hide Histories, Lockstep, Explained, Fits, LastFits;
    match e
    case Refuse => FitsLast(cd, c); NeverRefuses(cd, c);
    case Finish => ExplainedFinish(cd, c);
    case _ => ExplainedOther(cd, c, e);
  }

  lemma FitsLast(cd: Codec, c: Conn)
    requires Fits(cd, c)
    ensures LastFits(cd, c)
  {
  }

  lemma ExplainedFinish(cd: Codec, c: Conn)
    requires cd.Sound() && Fits(cd, c) && Histories(c) && Lockstep(cd, c) && Explained(cd, c)
    requires Next(cd, c, Finish).Some?
    ensures Explained(cd, Next(cd, c, Finish).value)
  {
    var p := FinishReturns(cd, c);
    hide Next, Histories, Lockstep, Fits;
    var n, d := |c.returned|, Return(c, cd.decRep(cd.encRep(p)));
    forall i | 0 <= i < |d.returned|
      ensures (d.returned[i].None? && d.py.Exited?)
              || (i < |d.served| && d.returned[i] == cd.decRep(cd.encRep(d.served[i].1)))
    {
      assert i < n ==> d.returned[i] == c.returned[i];
    }
  }

  lemma ExplainedOther(cd: Codec, c: Conn, e: Event)
    requires Explained(cd, c) && Next(cd, c, e).Some? && !e.Finish? && !e.Refuse?
    ensures Explained(cd, Next(cd, c, e).value)
  {
    var d := Next(cd, c, e).value;
    ExplainedGrows(cd, c, d);
  }

  lemma ExplainedGrows(cd: Codec, c: Conn, d: Conn)
    requires Explained(cd, c) && c.served <= d.served && (c.py.Exited? ==> d.py.Exited?)
    requires d.returned == c.returned || (d.returned == c.returned + [None] && d.py.Exited?)
    ensures Explained(cd, d)
  {
    forall i | 0 <= i < |d.returned|
      ensures (d.returned[i].None? && d.py.Exited?)
              || (i < |d.served| && d.returned[i] == cd.decRep(cd.encRep(d.served[i].1)))
    {
      if i < |c.returned| {
        assert d.returned[i] == c.returned[i];
        assert i < |c.served| ==> d.served[i] == c.served[i];
      }
    }
  }

  // A complete reply is the newest request's, and the host returns its reading of it.
  lemma FinishReturns(cd: Codec, c: Conn) returns (p: Reply)
    requires cd.Sound() && LastFits(cd, c) && Histories(c) && Lockstep(cd, c) && Next(cd, c, Finish).Some?
    ensures |c.served| == |c.begun| == |c.returned| + 1 && p == c.served[|c.begun| - 1].1
    ensures Next(cd, c, Finish).value == Return(c, cd.decRep(cd.encRep(p)))
    ensures c.host.got == Frame(cd.encRep(p))
  {
    p := c.served[|c.begun| - 1].1;
    var rest := ReadsOwnReply(cd, c);
    WantWithinFrame(c.host.got, rest, cd.encRep(p));
    FrameHeader(cd.encRep(p));
  }

  lemma StepFailure(cd: Codec, c: Conn, e: Event)
    requires Histories(c) && Lockstep(cd, c) && Next(cd, c, e).Some?
    requires e.SendFails? || e.RecvFails? || e.Crash? || e.PyRefuse?
    ensures var d := Next(cd, c, e).value; Histories(d) && Lockstep(cd, d)
  {
  }

  lemma StepLock(cd: Codec, c: Conn, op: Op)
    requires Histories(c) && Lockstep(cd, c) && Locked(cd, c, op).Some?
    ensures var d := Locked(cd, c, op).value; Histories(d) && Lockstep(cd, d)
  {
    var d := Locked(cd, c, op).value;
    assert [] + [] + d.host.left == d.host.left;
  }

  lemma StepSend(cd: Codec, c: Conn, k: nat)
    requires Histories(c) && Lockstep(cd, c) && Next(cd, c, Send(k)).Some?
    ensures var d := Next(cd, c, Send(k)).value; Histories(d) && Lockstep(cd, d)
  {
    var d := Next(cd, c, Send(k)).value;
    if c.py.Receiving? {
      assert c.py.got + c.toWorker + c.host.left == d.py.got + d.toWorker + d.host.left;
    }
  }

  lemma StepRecv(cd: Codec, c: Conn, k: nat)
    requires Histories(c) && Lockstep(cd, c) && Next(cd, c, Recv(k)).Some?
    ensures var d := Next(cd, c, Recv(k)).value; Histories(d) && Lockstep(cd, d)
  {
    var d := Next(cd, c, Recv(k)).value;
    assert c.host.got + c.toHost == d.host.got + d.toHost;
    assert |c.host.got| >= 4 ==> d.host.got[..4] == c.host.got[..4];
  }

  // What the host has read is a piece of the served reply's frame.
  lemma ReadsOwnReply(cd: Codec, c: Conn) returns (rest: bytes)
    requires Histories(c) && c.host.Busy? && Inbound(cd, c)
    ensures c.host.got + rest == Frame(cd.encRep(c.served[|c.begun| - 1].1))
  {
    var f := Frame(cd.encRep(c.served[|c.begun| - 1].1));
    if c.py.Replying? {
      rest := c.toHost + c.py.left;
      assert c.host.got + c.toHost + c.py.left == c.host.got + rest;
    } else {
      assert c.host.got + c.toHost <= f;
      rest := f[|c.host.got|..];
      assert c.host.got == (c.host.got + c.toHost)[..|c.host.got|] == f[..|c.host.got|];
    }
  }

  lemma NeverRefuses(cd: Codec, c: Conn)
    requires LastFits(cd, c) && Histories(c) && Lockstep(cd, c) && c.host.Busy?
    ensures !TooLong(c.host.got)
  {
    if |c.host.got| >= 4 {
      var rest := ReadsOwnReply(cd, c);
      WantWithinFrame(c.host.got, rest, cd.encRep(c.served[|c.begun| - 1].1));
    }
  }

  lemma StepFinish(cd: Codec, c: Conn)
    requires cd.Sound() && LastFits(cd, c) && Histories(c) && Lockstep(cd, c) && Next(cd, c, Finish).Some?
    ensures var d := Next(cd, c, Finish).value; Histories(d) && Lockstep(cd, d)
  {
    var p := FinishReturns(cd, c);
    var d := Next(cd, c, Finish).value;
    assert d.returned[|c.returned|] == cd.decRep(cd.encRep(p));
    assert |c.toHost| <= |Frame(cd.encRep(p))| - |c.host.got|;
  }

  lemma StepPyRecv(cd: Codec, c: Conn, k: nat)
    requires Histories(c) && Lockstep(cd, c) && Next(cd, c, PyRecv(k)).Some?
    ensures var d := Next(cd, c, PyRecv(k)).value; Histories(d) && Lockstep(cd, d)
  {
    var d := Next(cd, c, PyRecv(k)).value;
    assert c.py.got + c.toWorker + c.host.left == d.py.got + d.toWorker + d.host.left;
  }

  lemma StepPyParse(cd: Codec, c: Conn)
    requires cd.Sound() && Histories(c) && Lockstep(cd, c) && Next(cd, c, PyParse).Some?
    ensures var d := Next(cd, c, PyParse).value; Histories(d) && Lockstep(cd, d)
  {
    var m := cd.encReq(c.host.req);
    var rest := c.toWorker + c.host.left;
    assert c.py.got + rest == c.py.got + c.toWorker + c.host.left;
    WantWithinFrame(c.py.got, rest, m);
    FrameHeader(m);
  }

  lemma StepPyReply(cd: Codec, c: Conn, p: Reply)
    requires Histories(c) && Lockstep(cd, c) && Next(cd, c, PyReply(p)).Some?
    ensures var d := Next(cd, c, PyReply(p)).value; Histories(d) && Lockstep(cd, d)
  {
    var d := Next(cd, c, PyReply(p)).value;
    assert d.served[|c.served|] == (c.py.req, p);
    assert [] + [] + d.py.left == d.py.left;
  }

  lemma StepPySend(cd: Codec, c: Conn, k: nat)
    requires Histories(c) && Lockstep(cd, c) && Next(cd, c, PySend(k)).Some?
    ensures var d := Next(cd, c, PySend(k)).value; Histories(d) && Lockstep(cd, d)
  {
    var d := Next(cd, c, PySend(k)).value;
    assert c.host.got + c.toHost + c.py.left == c.host.got + d.toHost + c.py.left[k..];
    if k == |c.py.left| {
      assert c.py.left[k..] == [];
      assert c.host.got + d.toHost + [] == c.host.got + d.toHost;
    }
  }
}
