/** What each worker sees: requests of one Run at a time, in the order the Run
    issued them, and nothing after a single Shutdown. */
module PoolLogs {
  import opened Wrappers
  import opened Messages
  import opened Pool

  // The requests of each party are contiguous.
  ghost predicate Contiguous(l: seq<Use>) {
    forall i, j, k | 0 <= i <= j <= k < |l| && l[i].who == l[k].who :: l[j].who == l[i].who
  }

  // A ping only opens a party's segment, a shutdown only ends the whole log, and
  // the closer asks for nothing but shutdown.
  ghost predicate Framed(l: seq<Use>) {
    && (forall i | 0 < i < |l| && l[i].op.OpPing? :: l[i - 1].who != l[i].who)
    && (forall i | 0 <= i < |l| - 1 :: !l[i].op.OpShutdown?)
    && (forall i | 0 <= i < |l| && l[i].who.ByCloser? :: l[i].op.OpShutdown?)
  }

  ghost predicate Stopped(l: seq<Use>) {
    l != [] && l[|l| - 1].op.OpShutdown?
  }

  ghost predicate Appears(l: seq<Use>, p: Party) {
    exists i :: 0 <= i < |l| && l[i].who == p
  }

  // If p appears, it has the log from there on.
  ghost predicate Latest(l: seq<Use>, p: Party) {
    forall i, j | 0 <= i <= j < |l| && l[i].who == p :: l[j].who == p
  }

  // The calls and probes of Run r, in the order the worker got them.
  function AsksBy(l: seq<Use>, r: RunId): seq<Op> {
    if l == [] then []
    else AsksBy(l[..|l| - 1], r)
         + (if l[|l| - 1].who == ByRun(r) && Numbered(l[|l| - 1].op) then [l[|l| - 1].op] else [])
  }

  lemma AsksAppend(l: seq<Use>, u: Use, r: RunId)
    ensures AsksBy(l + [u], r) == AsksBy(l, r) + (if u.who == ByRun(r) && Numbered(u.op) then [u.op] else [])
  {
    assert (l + [u])[..|l|] == l;
  }

  // ---------------------------------------------------------------- invariant

  ghost predicate LogsFormed(s: State) {
    forall w <- s.log :: Contiguous(s.log[w]) && Framed(s.log[w])
  }

  // A Run that has not pinged anything is in no log, and a holder is the latest
  // in its worker's log.
  ghost predicate LogsOwned(s: State) {
    && (forall r, w | w in s.log && Appears(s.log[w], ByRun(r)) ::
          r in s.agents && !s.agents[r].Checked? && !s.agents[r].Taken?)
    && (forall r, w | HeldBy(s, r, w) && w in s.log :: Latest(s.log[w], ByRun(r)))
  }

  ghost predicate StopsMatch(s: State) {
    && (forall w | w in s.dead && w in s.log :: Stopped(s.log[w]))
    && (forall w | w in s.queue && w in s.log :: !Stopped(s.log[w]))
    && (forall r, w | HeldBy(s, r, w) && w in s.log :: Stopped(s.log[w]) <==> s.agents[r].Stopping?)
    && (forall w | CloserWorker(s.closer) == Some(w) && w in s.log ::
          Stopped(s.log[w]) <==> s.closer.CloserStopping?)
  }

  predicate BeforeGrant(a: Agent) {
    a.Checked? || a.Taken? || a.Pinging? || a.Spawning?
    || ((a.MustStop? || a.Stopping?) && a.respawn)
  }

  ghost predicate Issues(s: State) {
    && s.lease.Keys == s.issued.Keys
    && (forall r <- s.lease :: r in s.agents && !BeforeGrant(s.agents[r]) && s.lease[r] in s.log)
    && (forall r | r in s.agents && s.agents[r].Holding? :: r in s.lease && s.lease[r] == s.agents[r].w)
    && (forall r, w | w in s.log :: AsksMatch(s, r, w))
  }

  ghost predicate Inv(s: State) {
    Owned(s) && LogsFormed(s) && LogsOwned(s) && StopsMatch(s) && Issues(s)
  }

  lemma InvInitial(s: State)
    requires Initial(s)
    ensures Inv(s)
  {
    OwnedInitial(s);
  }

  // ---------------------------------------------------------------- one more request

  lemma AppendFormed(l: seq<Use>, u: Use)
    requires Contiguous(l) && Framed(l) && !Stopped(l) && Latest(l, u.who)
    requires u.op.OpPing? ==> !Appears(l, u.who)
    requires u.who.ByCloser? ==> u.op.OpShutdown?
    ensures Contiguous(l + [u]) && Framed(l + [u]) && Latest(l + [u], u.who)
    ensures Stopped(l + [u]) <==> u.op.OpShutdown?
    ensures forall p :: Appears(l + [u], p) <==> Appears(l, p) || p == u.who
  {
    var m := l + [u];
    assert m[|l|] == u;
    forall p ensures Appears(m, p) <==> Appears(l, p) || p == u.who {
      if Appears(l, p) {
        var i :| 0 <= i < |l| && l[i].who == p;
        assert m[i].who == p;
      }
    }
    assert forall i | 0 <= i < |l| :: m[i] == l[i];
    assert u.op.OpPing? && l != [] ==> l[|l| - 1].who != u.who;
  }

  ghost predicate AsksMatch(s: State, r: RunId, w: Wid)
    requires w in s.log && s.lease.Keys == s.issued.Keys
  {
    AsksBy(s.log[w], r) == if r in s.lease && s.lease[r] == w then s.issued[r] else []
  }

  // ---------------------------------------------------------------- steps

  lemma InvNext(s: State, e: Event)
    requires Inv(s) && Next(s, e).Some?
    ensures Inv(Next(s, e).value)
  {
    OwnedNext(s, e);
    if e.Ping? || e.Ask? || e.StopBegin? || e.CloserStop? || e.SpawnOk? {
      InvRequest(s, e);
    } else {
      MoveShape(s, e);
      AfterMove(s, Next(s, e).value);
    }
  }

  lemma InvRequest(s: State, e: Event)
    requires Inv(s) && Next(s, e).Some? && Owned(Next(s, e).value)
    requires e.Ping? || e.Ask? || e.StopBegin? || e.CloserStop? || e.SpawnOk?
    ensures Inv(Next(s, e).value)
  {
    hide Inv, Owned, Sends, Spawns, Log, Grant;
    match e
    case Ping(r) =>
      ShapePing(s, r);
      AfterSend(s, StepPing(s, r).value, s.agents[r].w, Use(ByRun(r), OpPing));
    case Ask(r, op) =>
      ShapeAsk(s, r, op);
      AfterSend(s, StepAsk(s, r, op).value, s.agents[r].w, Use(ByRun(r), op));
    case StopBegin(r) =>
      ShapeStop(s, r);
      AfterSend(s, StepStopBegin(s, r).value, s.agents[r].w, Use(ByRun(r), OpShutdown));
    case CloserStop =>
      ShapeCloserStop(s);
      AfterSend(s, StepCloserStop(s).value, s.closer.w, Use(ByCloser, OpShutdown));
    case SpawnOk(r, w) =>
      LogsSpawn(s, r, w);
      AfterSpawn(s, StepSpawnOk(s, r, w).value, r, w);
  }

  lemma MoveShape(s: State, e: Event)
    requires Owned(s) && Next(s, e).Some?
    requires !e.Ping? && !e.Ask? && !e.StopBegin? && !e.CloserStop? && !e.SpawnOk?
    ensures Moves(s, Next(s, e).value) && Grants(s, Next(s, e).value)
  {
    hide Moves, Grants, Owned;
    match e
    case Arrive(r) => MoveArrive(s, r);
    case Cancel(r) => MoveCancel(s, r);
    case Take(r) => MoveTake(s, r); TakeGrantsNothing(s, r);
    case PingOk(r) => MovePingOk(s, r);
    case PingBad(r) => MovePingBad(s, r);
    case Release(r) => MoveRelease(s, r);
    case CheckRelease(r) => MoveCheckRelease(s, r);
    case Put(r) => MovePut(s, r); PutGrantsNothing(s, r);
    case StopEnd(r) => MoveStopEnd(s, r);
    case SpawnFails(r) => MoveSpawnFails(s, r);
    case _ => MoveCloser(s, e);
  }

  lemma MoveCloser(s: State, e: Event)
    requires Owned(s) && Next(s, e).Some?
    requires e.SetFlag? || e.CloseChan? || e.Drain? || e.CloserStopped? || e.CloseReturns?
    ensures Moves(s, Next(s, e).value) && Grants(s, Next(s, e).value)
  {
    hide Owned, Moves, Grants;
    var t := Next(s, e).value;
    match e
    case Drain => CloserTakes(s, t);
    case CloserStopped => CloserDrops(s, t);
    case _ => CloserShifts(s, t);
  }

  lemma CloserShifts(s: State, t: State)
    requires t == s.(closer := t.closer, flag := t.flag, chanClosed := t.chanClosed)
    requires CloserWorker(t.closer).None?
    ensures Moves(s, t) && Grants(s, t)
  {
  }

  lemma CloserTakes(s: State, t: State)
    requires StepDrain(s) == Some(t)
    ensures Moves(s, t) && Grants(s, t)
  {
  }

  lemma CloserDrops(s: State, t: State)
    requires StepCloserStopped(s) == Some(t)
    ensures Moves(s, t) && Grants(s, t)
  {
  }

  lemma MoveArrive(s: State, r: RunId)
    requires StepArrive(s, r).Some?
    ensures var t := StepArrive(s, r).value; Moves(s, t) && Grants(s, t)
  {
  }

  lemma MoveCancel(s: State, r: RunId)
    requires StepCancel(s, r).Some?
    ensures var t := StepCancel(s, r).value; Moves(s, t) && Grants(s, t)
  {
  }

  lemma MoveTake(s: State, r: RunId)
    requires StepTake(s, r).Some?
    ensures Moves(s, StepTake(s, r).value)
  {
    if s.queue == [] {
      MoveTakeNil(s, r);
    } else {
      MoveTakeWorker(s, r);
    }
  }

  lemma MoveTakeNil(s: State, r: RunId)
    requires r in s.agents && s.agents[r].Checked?
    ensures Moves(s, s.(agents := s.agents[r := Panicked(None)]))
  {
  }

  lemma MoveTakeWorker(s: State, r: RunId)
    requires r in s.agents && s.agents[r].Checked? && s.queue != []
    ensures Moves(s, s.(agents := s.agents[r := Taken(s.queue[0])], queue := s.queue[1..]))
  {
    var t := s.(agents := s.agents[r := Taken(s.queue[0])], queue := s.queue[1..]);
    assert forall q, w :: HeldBy(t, q, w) ==> HeldBy(s, q, w) || (q == r && w == s.queue[0]);
  }

  lemma TakeGrantsNothing(s: State, r: RunId)
    requires StepTake(s, r).Some?
    ensures Grants(s, StepTake(s, r).value)
  {
  }

  lemma MovePingOk(s: State, r: RunId)
    requires StepPingOk(s, r).Some?
    ensures var t := StepPingOk(s, r).value; Moves(s, t) && Grants(s, t)
  {
    assert GrantsTo(s, StepPingOk(s, r).value, r, s.agents[r].w);
  }

  lemma MovePingBad(s: State, r: RunId)
    requires StepPingBad(s, r).Some?
    ensures var t := StepPingBad(s, r).value; Moves(s, t) && Grants(s, t)
  {
  }

  lemma MoveRelease(s: State, r: RunId)
    requires StepRelease(s, r).Some?
    ensures var t := StepRelease(s, r).value; Moves(s, t) && Grants(s, t)
  {
  }

  lemma MoveCheckRelease(s: State, r: RunId)
    requires StepCheckRelease(s, r).Some?
    ensures var t := StepCheckRelease(s, r).value; Moves(s, t) && Grants(s, t)
  {
  }

  lemma MovePut(s: State, r: RunId)
    requires StepPut(s, r).Some?
    ensures var t := StepPut(s, r).value; Moves(s, t)
  {
    var w := s.agents[r].w;
    assert HeldBy(s, r, w);
    if s.chanClosed {
      MoveHeld(s, r, Panicked(Some(w)));
    } else if |s.queue| < s.size {
      MoveBack(s, r);
    } else {
      MoveHeld(s, r, MustStop(w, false));
    }
  }

  lemma MoveHeld(s: State, r: RunId, a: Agent)
    requires r in s.agents && WorkerOf(a) == WorkerOf(s.agents[r]) && !a.Stopping? && !s.agents[r].Stopping?
    requires !a.Checked? && !a.Taken?
    ensures Moves(s, Step(s, r, a))
  {
  }

  lemma MoveBack(s: State, r: RunId)
    requires r in s.agents && s.agents[r].ReleaseChecked?
    ensures Moves(s, Step(s, r, Left).(queue := s.queue + [s.agents[r].w]))
  {
    assert HeldBy(s, r, s.agents[r].w);
  }

  lemma PutGrantsNothing(s: State, r: RunId)
    requires StepPut(s, r).Some?
    ensures Grants(s, StepPut(s, r).value)
  {
    var t := StepPut(s, r).value;
    assert t.agents == s.agents[r := t.agents[r]] && !BeforeGrant(t.agents[r]) && !t.agents[r].Holding?;
    hide StepPut, BeforeGrant;
  }

  lemma MoveStopEnd(s: State, r: RunId)
    requires StepStopEnd(s, r).Some?
    ensures var t := StepStopEnd(s, r).value; Moves(s, t) && Grants(s, t)
  {
    assert HeldBy(s, r, s.agents[r].w);
  }

  lemma MoveSpawnFails(s: State, r: RunId)
    requires StepSpawnFails(s, r).Some?
    ensures var t := StepSpawnFails(s, r).value; Moves(s, t) && Grants(s, t)
  {
  }

  // Worker w is sent u by its holder.
  ghost predicate Sends(s: State, t: State, w: Wid, u: Use) {
    && w in s.log && t.log == s.log[w := s.log[w] + [u]]
    && t.queue == s.queue && t.dead == s.dead && t.lease == s.lease
    && (forall q, v :: HeldBy(t, q, v) <==> HeldBy(s, q, v))
    && CloserWorker(t.closer) == CloserWorker(s.closer)
    && t.agents.Keys == s.agents.Keys
    && (forall r <- t.agents :: t.agents[r] == s.agents[r] || u.who == ByRun(r))
    && (match u.who
        case ByRun(r) =>
          && HeldBy(s, r, w) && !s.agents[r].Stopping?
          && !t.agents[r].Checked? && !t.agents[r].Taken?
          && (u.op.OpPing? ==> s.agents[r].Taken?)
          && (t.agents[r].Stopping? <==> u.op.OpShutdown?)
          && BeforeGrant(t.agents[r]) == BeforeGrant(s.agents[r])
          && (if Numbered(u.op) then s.agents[r].Holding? && t.agents == s.agents else !t.agents[r].Holding?)
          && t.closer == s.closer
        case ByCloser =>
          && s.closer.CloserHas? && s.closer.w == w && t.closer.CloserStopping? && u.op.OpShutdown?
          && t.agents == s.agents)
    && (if Numbered(u.op)
        then u.who.ByRun? && u.who.r in s.issued && t.issued == s.issued[u.who.r := s.issued[u.who.r] + [u.op]]
        else t.issued == s.issued)
  }

  lemma ShapePing(s: State, r: RunId)
    requires StepPing(s, r).Some?
    ensures Sends(s, StepPing(s, r).value, s.agents[r].w, Use(ByRun(r), OpPing))
  {
  }

  lemma ShapeAsk(s: State, r: RunId, op: Op)
    requires StepAsk(s, r, op).Some?
    ensures Sends(s, StepAsk(s, r, op).value, s.agents[r].w, Use(ByRun(r), op))
  {
  }

  lemma ShapeStop(s: State, r: RunId)
    requires StepStopBegin(s, r).Some?
    ensures Sends(s, StepStopBegin(s, r).value, s.agents[r].w, Use(ByRun(r), OpShutdown))
  {
  }

  lemma ShapeCloserStop(s: State)
    requires StepCloserStop(s).Some?
    ensures Sends(s, StepCloserStop(s).value, s.closer.w, Use(ByCloser, OpShutdown))
  {
  }

  lemma AfterSend(s: State, t: State, w: Wid, u: Use)
    requires Inv(s) && Owned(t) && Sends(s, t, w, u)
    ensures Inv(t)
  {
    SendFormed(s, t, w, u);
    SendOwned(s, t, w, u);
    SendStops(s, t, w, u);
    SendIssues(s, t, w, u);
  }

  // Requests are added by the worker's holder only.
  lemma SendFormed(s: State, t: State, w: Wid, u: Use)
    requires Owned(s) && LogsFormed(s) && LogsOwned(s) && StopsMatch(s) && Sends(s, t, w, u)
    ensures LogsFormed(t)
    ensures Latest(t.log[w], u.who) && (Stopped(t.log[w]) <==> u.op.OpShutdown?)
    ensures forall p :: Appears(t.log[w], p) <==> Appears(s.log[w], p) || p == u.who
  {
    if u.who.ByCloser? {
      assert Latest(s.log[w], ByCloser);
    }
    AppendFormed(s.log[w], u);
  }

  lemma SendOwned(s: State, t: State, w: Wid, u: Use)
    requires LogsOwned(s) && Owned(s) && Sends(s, t, w, u)
    requires Latest(t.log[w], u.who)
    requires forall p :: Appears(t.log[w], p) <==> Appears(s.log[w], p) || p == u.who
    ensures LogsOwned(t)
  {
    hide Latest, Appears, Counted, Phases;
    forall r, v | HeldBy(t, r, v) && v in t.log ensures Latest(t.log[v], ByRun(r)) {
      assert HeldBy(s, r, v);
      if v == w {
        assert u.who == ByRun(r);
      }
    }
  }

  lemma SendStops(s: State, t: State, w: Wid, u: Use)
    requires StopsMatch(s) && Owned(s) && Sends(s, t, w, u)
    requires Stopped(t.log[w]) <==> u.op.OpShutdown?
    ensures StopsMatch(t)
  {
    forall r, v | HeldBy(t, r, v) && v in t.log ensures Stopped(t.log[v]) <==> t.agents[r].Stopping? {
      assert HeldBy(s, r, v);
    }
  }

  lemma SendIssues(s: State, t: State, w: Wid, u: Use)
    requires Issues(s) && Sends(s, t, w, u)
    ensures Issues(t)
  {
    assert t.lease.Keys == t.issued.Keys;
    forall r, v | v in t.log ensures AsksMatch(t, r, v) {
      assert AsksMatch(s, r, v);
      if v == w {
        AsksAppend(s.log[w], u, r);
      }
    }
  }

  ghost predicate Spawns(s: State, t: State, r: RunId, w: Wid) {
    && w !in s.log && r in s.agents && s.agents[r].Spawning?
    && t.log == s.log[w := []] && t.agents == s.agents[r := Holding(w)]
    && t.queue == s.queue && t.dead == s.dead && t.closer == s.closer
    && t.lease == s.lease[r := w] && t.issued == s.issued[r := []]
  }

  lemma LogsSpawn(s: State, r: RunId, w: Wid)
    requires Inv(s) && StepSpawnOk(s, r, w).Some?
    ensures Spawns(s, StepSpawnOk(s, r, w).value, r, w)
  {
  }

  lemma AfterSpawn(s: State, t: State, r: RunId, w: Wid)
    requires Inv(s) && Owned(t) && Spawns(s, t, r, w)
    ensures Inv(t)
  {
    SpawnOwned(s, t, r, w);
    SpawnStops(s, t, r, w);
    SpawnIssues(s, t, r, w);
  }

  lemma SpawnOwned(s: State, t: State, r: RunId, w: Wid)
    requires LogsFormed(s) && LogsOwned(s) && Spawns(s, t, r, w)
    ensures LogsFormed(t) && LogsOwned(t)
  {
    forall q, v | HeldBy(t, q, v) && v in t.log ensures Latest(t.log[v], ByRun(q)) {
      assert q != r ==> HeldBy(s, q, v);
    }
  }

  lemma SpawnStops(s: State, t: State, r: RunId, w: Wid)
    requires Owned(s) && StopsMatch(s) && Spawns(s, t, r, w)
    ensures StopsMatch(t)
  {
    forall q, v | HeldBy(t, q, v) && v in t.log ensures Stopped(t.log[v]) <==> t.agents[q].Stopping? {
      assert q != r ==> HeldBy(s, q, v);
    }
  }

  lemma SpawnIssues(s: State, t: State, r: RunId, w: Wid)
    requires Issues(s) && Spawns(s, t, r, w)
    ensures Issues(t)
  {
    assert r !in s.lease;
    forall q, v | v in t.log ensures AsksMatch(t, q, v) {
      if v != w {
        assert AsksMatch(s, q, v);
      }
    }
  }

  // ---------------------------------------------------------------- log unchanged

  // Nothing is sent: workers may change hands, and a Run may be granted one.
  ghost predicate Moves(s: State, t: State) {
    && t.log == s.log
    && s.agents.Keys <= t.agents.Keys
    && (forall r, w | HeldBy(t, r, w) ::
          || (HeldBy(s, r, w) && (t.agents[r].Stopping? <==> s.agents[r].Stopping?))
          || (w in s.queue && r in s.agents && s.agents[r].Checked? && !t.agents[r].Stopping?))
    && (forall r | r in t.agents && (t.agents[r].Checked? || t.agents[r].Taken?) ::
          r !in s.agents || s.agents[r].Checked? || s.agents[r] == t.agents[r])
    && (forall w <- t.queue :: w in s.queue || exists r :: HeldBy(s, r, w) && !s.agents[r].Stopping?)
    && (forall w <- t.dead ::
          w in s.dead || (s.closer.CloserStopping? && s.closer.w == w)
          || exists r :: HeldBy(s, r, w) && s.agents[r].Stopping?)
    && (CloserWorker(t.closer).Some? ==>
          t.closer == s.closer || (t.closer.CloserHas? && t.closer.w in s.queue))
  }

  // Grants happen once, to a Run that has pinged its worker or replaced it.
  ghost predicate Grants(s: State, t: State) {
    && (forall r | r in t.agents && r in s.agents && BeforeGrant(t.agents[r]) :: BeforeGrant(s.agents[r]))
    && (|| (t.lease == s.lease && t.issued == s.issued
            && forall r | r in t.agents && t.agents[r].Holding? :: r in s.agents && t.agents[r] == s.agents[r])
        || (exists r, w :: GrantsTo(s, t, r, w)))
  }

  ghost predicate GrantsTo(s: State, t: State, r: RunId, w: Wid) {
    && r in s.agents && s.agents[r] == Pinging(w) && t.agents == s.agents[r := Holding(w)]
    && t.lease == s.lease[r := w] && t.issued == s.issued[r := []]
  }

  lemma AfterMove(s: State, t: State)
    requires Inv(s) && Owned(t) && Moves(s, t) && Grants(s, t)
    ensures Inv(t)
  {
    MoveOwned(s, t);
    MoveStops(s, t);
    MoveIssues(s, t);
  }

  lemma MoveOwned(s: State, t: State)
    requires LogsOwned(s) && Moves(s, t)
    ensures LogsOwned(t)
  {
  }

  lemma MoveStops(s: State, t: State)
    requires StopsMatch(s) && Owned(s) && Moves(s, t)
    ensures StopsMatch(t)
  {
    forall w | w in t.queue && w in t.log ensures !Stopped(t.log[w]) {
      if w !in s.queue {
        var r :| HeldBy(s, r, w) && !s.agents[r].Stopping?;
      }
    }
    forall w | w in t.dead && w in t.log ensures Stopped(t.log[w]) {
      if w !in s.dead && !(s.closer.CloserStopping? && s.closer.w == w) {
        var r :| HeldBy(s, r, w) && s.agents[r].Stopping?;
      }
    }
  }

  lemma MoveIssues(s: State, t: State)
    requires Issues(s) && Owned(s) && Moves(s, t) && Grants(s, t)
    ensures Issues(t)
  {
    if t.lease == s.lease && t.issued == s.issued {
      forall r, w | w in t.log ensures AsksMatch(t, r, w) {
        assert AsksMatch(s, r, w);
      }
    } else {
      var r, w :| GrantsTo(s, t, r, w);
      GrantIssues(s, t, r, w);
    }
  }

  lemma GrantIssues(s: State, t: State, r: RunId, w: Wid)
    requires Issues(s) && Owned(s) && t.log == s.log && GrantsTo(s, t, r, w)
    ensures Issues(t)
  {
    assert HeldBy(s, r, w);
    assert r !in s.lease;
    forall q, v | v in t.log ensures AsksMatch(t, q, v) {
      assert AsksMatch(s, q, v);
    }
  }
}
