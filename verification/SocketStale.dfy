/** What becomes of a worker connection after a reply above 16 MiB: the refused
    body stays in the socket and later requests read it in place of their own
    replies. */
module SocketStale {
  import opened Framing
  import opened Wrappers
  import opened Messages
  import opened Socket
  import SR = SocketRuns

  // Every request that has returned was sent a reply that fits.
  ghost predicate EarlierFit(cd: Codec, c: Conn) {
    forall i | 0 <= i < |c.returned| && i < |c.served| :: |cd.encRep(c.served[i].1)| <= SOCKET_LIMIT
  }

  lemma EarlierBefore(cd: Codec, c: Conn, e: Event)
    requires Next(cd, c, e).Some? && EarlierFit(cd, Next(cd, c, e).value)
    ensures EarlierFit(cd, c)
    ensures Histories(c) && (e.Refuse? || e.Finish?) ==> LastFits(cd, c)
  {
    var d := Next(cd, c, e).value;
    assert c.served <= d.served && c.returned <= d.returned;
    assert forall i | 0 <= i < |c.served| :: c.served[i] == d.served[i];
  }

  lemma {:induction false} EarlierRun(cd: Codec, c: Conn, es: seq<Event>)
    requires cd.Sound() && Run(cd, c, es).Some? && EarlierFit(cd, Run(cd, c, es).value)
    requires EarlierFit(cd, c) ==> Histories(c) && Lockstep(cd, c)
    ensures Histories(Run(cd, c, es).value) && Lockstep(cd, Run(cd, c, es).value)
    decreases |es|
  {
    hide Next, Histories, Lockstep, EarlierFit, LastFits;
    if es != [] {
      var d := Next(cd, c, es[0]).value;
      if EarlierFit(cd, d) {
        EarlierBefore(cd, c, es[0]);
        StepKeeps(cd, c, es[0]);
      }
      EarlierRun(cd, d, es[1..]);
    }
  }

  // Text as json.dumps writes it: no byte below a space.
  predicate Plain(m: bytes) { forall b <- m :: b >= 32 }

  // What the host has read of the open request's reply, and what is coming.
  function Got(c: Conn): bytes { if c.host.Busy? then c.host.got else [] }

  function Coming(c: Conn): bytes { c.toHost + if c.py.Replying? then c.py.left else [] }

  function Ahead(c: Conn): bytes { Got(c) + Coming(c) }

  // What the host reads next begins with `rest`, or stops short of it when the
  // worker is gone; `rest` lasts for the requests up to the n-th.
  ghost predicate Stale(c: Conn, rest: bytes, n: nat) {
    && Plain(rest)
    && (rest <= Ahead(c) || (c.py.Exited? && Ahead(c) <= rest))
    && |c.begun| == |c.returned| + (if c.host.Busy? then 1 else 0)
    && |c.begun| <= n && 4 * (n - |c.returned|) <= |rest|
    && (c.host.Busy? ==> |c.host.got| <= 4 && (c.host.left != [] ==> c.host.got == []))
  }

  // Four stale bytes are no length the host accepts.
  lemma StaleHeader(c: Conn, rest: bytes, n: nat)
    requires Stale(c, rest, n) && c.host.Busy?
    ensures c.host.got <= rest
    ensures |c.host.got| == 4 ==> TooLong(c.host.got)
  {
    assert c.host.got <= Ahead(c);
    if |c.host.got| == 4 {
      assert c.host.got[0] == rest[0] && rest[0] in rest && c.host.got[..4] == c.host.got;
    }
  }

  predicate Returns(e: Event) { e.SendFails? || e.RecvFails? || e.Refuse? || e.Finish? }

  // Steps that move bytes along, add a reply's behind them, or lose the unsent end.
  lemma ComingKept(cd: Codec, c: Conn, e: Event)
    requires Next(cd, c, e).Some? && !Returns(e) && !e.Recv?
    ensures var d := Next(cd, c, e).value;
            && Got(d) == Got(c)
            && (if e.Crash? then Coming(d) <= Coming(c)
                else Coming(c) <= Coming(d) && (c.py.Exited? ==> Coming(d) == Coming(c)))
  {
    match e
    case PySend(k) =>
      assert c.py.left[..k] + c.py.left[k..] == c.py.left;
      assert (c.toHost + c.py.left[..k]) + c.py.left[k..] == c.toHost + c.py.left;
    case _ =>
  }

  lemma AheadKept(cd: Codec, c: Conn, e: Event)
    requires Next(cd, c, e).Some? && !Returns(e)
    ensures var d := Next(cd, c, e).value;
            if e.Crash? then Ahead(d) <= Ahead(c) else Ahead(c) <= Ahead(d) && (c.py.Exited? ==> Ahead(d) == Ahead(c))
  {
    if e.Recv? {
      var d, k := Next(cd, c, e).value, e.k;
      assert c.toHost[..k] + c.toHost[k..] == c.toHost;
      assert Coming(c) == c.toHost[..k] + Coming(d);
    } else {
      ComingKept(cd, c, e);
      hide Next, Got, Coming;
    }
  }

  lemma StaleMoves(cd: Codec, c: Conn, e: Event, rest: bytes, n: nat)
    requires Stale(c, rest, n) && Next(cd, c, e).Some? && |Next(cd, c, e).value.begun| <= n && !Returns(e)
    ensures Stale(Next(cd, c, e).value, rest, n) && Next(cd, c, e).value.returned == c.returned
  {
    var d := Next(cd, c, e).value;
    AheadKept(cd, c, e);
    if c.host.Busy? {
      StaleHeader(c, rest, n);
    }
    hide Ahead, Plain, TooLong;
    assert rest <= Ahead(d) || (d.py.Exited? && Ahead(d) <= rest) by {
      if e.Crash? && rest <= Ahead(c) {
        PrefixesCompare(Ahead(d), rest, Ahead(c));
      }
    }
  }

  lemma PrefixesCompare(a: bytes, b: bytes, s: bytes)
    requires a <= s && b <= s
    ensures a <= b || b <= a
  {
  }

  // A return drops what was read for it, at most four bytes.
  lemma StaleReturns(cd: Codec, c: Conn, e: Event, rest: bytes, n: nat) returns (rest': bytes)
    requires Stale(c, rest, n) && Next(cd, c, e).Some? && Returns(e)
    ensures var d := Next(cd, c, e).value; Stale(d, rest', n) && d.returned == c.returned + [None]
  {
    StaleHeader(c, rest, n);
    var d, g := Next(cd, c, e).value, |c.host.got|;
    rest' := rest[g..];
    assert Plain(rest') by {
      assert forall b <- rest' :: b in rest;
    }
    hide Plain;
    assert Coming(d) <= Coming(c) && (d.py.Exited? || Coming(d) == Coming(c));
    match e
    case Refuse =>
      hide Coming;
      assert Ahead(c)[g..] == Coming(c) && Ahead(d) == Coming(d);
      if rest <= Ahead(c) {
        assert rest' <= Coming(c);
        PrefixesCompare(Coming(d), rest', Coming(c));
      }
    case SendFails => assert rest' == rest;
    case RecvFails => assert Ahead(d) == [];
    case _ =>
  }

  lemma StaleNext(cd: Codec, c: Conn, e: Event, rest: bytes, n: nat) returns (rest': bytes)
    requires Stale(c, rest, n) && Next(cd, c, e).Some? && |Next(cd, c, e).value.begun| <= n
    ensures var d := Next(cd, c, e).value;
            Stale(d, rest', n) && (d.returned == c.returned || d.returned == c.returned + [None])
  {
    hide Stale, Next;
    if Returns(e) {
      rest' := StaleReturns(cd, c, e, rest, n);
    } else {
      StaleMoves(cd, c, e, rest, n);
      rest' := rest;
    }
  }

  lemma {:induction false} StaleRun(cd: Codec, c: Conn, es: seq<Event>, rest: bytes, n: nat)
    requires Stale(c, rest, n) && Run(cd, c, es).Some? && |Run(cd, c, es).value.begun| <= n
    ensures var z := Run(cd, c, es).value;
            c.returned <= z.returned && forall i | |c.returned| <= i < |z.returned| :: z.returned[i] == None
    decreases |es|
  {
    hide Next, Stale;
    if es != [] {
      var d := Next(cd, c, es[0]).value;
      SR.HistoriesGrow(cd, d, es[1..]);
      var rest' := StaleNext(cd, c, es[0], rest, n);
      StaleRun(cd, d, es[1..], rest', n);
    }
  }

  // The worker has answered the open request, the first time with a text above
  // 16 MiB.
  ghost predicate Oversized(cd: Codec, c: Conn) {
    && EarlierFit(cd, c) && c.host.Busy? && !c.host.req.Shutdown? && !c.py.Exited?
    && |c.served| == |c.begun| >= 1
    && var m := cd.encRep(c.served[|c.begun| - 1].1);
    && |m| > SOCKET_LIMIT && Plain(m)
  }

  lemma LeavesStale(cd: Codec, c: Conn, e: Event) returns (m: bytes)
    requires cd.Sound() && Histories(c) && Lockstep(cd, c) && Oversized(cd, c)
    requires Next(cd, c, e).Some? && Next(cd, c, e).value.host.Free?
    ensures var d := Next(cd, c, e).value;
            && Stale(d, m, |d.begun| + 0x40_0000)
            && d.returned == c.returned + [None] && d.begun == c.begun
  {
    SR.CleanIffFits(cd, c, e);
    var d := Next(cd, c, e).value;
    m := cd.encRep(c.served[|c.begun| - 1].1);
    assert d.begun == c.begun && |c.begun| == |c.returned| + 1;
    hide Lockstep, Next, Histories;
    assert Coming(d) == m && Ahead(d) == m;
  }

  lemma OversizedInStep(cd: Codec, es: seq<Event>)
    requires cd.Sound() && Run(cd, FRESH, es).Some? && Oversized(cd, Run(cd, FRESH, es).value)
    ensures Histories(Run(cd, FRESH, es).value) && Lockstep(cd, Run(cd, FRESH, es).value)
  {
    InvFresh(cd);
    EarlierRun(cd, FRESH, es);
  }

  // Once the host has refused a reply, no request to that worker returns anything
  // for as long as the unread body lasts: not the next 4,194,304 of them, pings
  // included, whatever they ask and whether or not the worker is alive.
  lemma AfterOversized(cd: Codec, es: seq<Event>, e: Event, fs: seq<Event>)
    requires cd.Sound() && Run(cd, FRESH, es).Some? && Oversized(cd, Run(cd, FRESH, es).value)
    requires Run(cd, FRESH, es + [e]).Some? && Run(cd, FRESH, es + [e]).value.host.Free?
    requires Run(cd, FRESH, es + [e] + fs).Some?
    requires |Run(cd, FRESH, es + [e] + fs).value.begun| <= |Run(cd, FRESH, es).value.begun| + 0x40_0000
    ensures var c, z := Run(cd, FRESH, es).value, Run(cd, FRESH, es + [e] + fs).value;
            c.returned <= z.returned && forall i | |c.returned| <= i < |z.returned| :: z.returned[i] == None
  {
    hide Next, Histories, Lockstep, Oversized, Stale, EarlierFit;
    var c := Run(cd, FRESH, es).value;
    SR.RunConcat(cd, FRESH, es, [e]);
    SR.RunConcat(cd, FRESH, es + [e], fs);
    var d := Next(cd, c, e).value;
    assert Run(cd, c, [e]) == Run(cd, d, [e][1..]);
    OversizedInStep(cd, es);
    var m := LeavesStale(cd, c, e);
    StaleRun(cd, d, fs, m, |d.begun| + 0x40_0000);
  }
}
