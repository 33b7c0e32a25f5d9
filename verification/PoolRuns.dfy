/** What holds in every run of the pool. */
module PoolRuns {
  import opened Wrappers
  import opened Pool
  import opened PoolLogs

  lemma {:induction false} InvRun(s: State, es: seq<Event>)
    requires Inv(s) && Run(s, es).Some?
    ensures Inv(Run(s, es).value)
    decreases |es|
  {
    if es != [] {
      InvNext(s, es[0]);
      InvRun(Next(s, es[0]).value, es[1..]);
    }
  }

  // Conservation. Until Close, every slot of the pool is in the channel, in the
  // hands of exactly one Run, or lost to a failed replacement; workers in the
  // channel and in hand are pairwise distinct and alive; and a release that is
  // about to send always finds room.
  lemma Conservation(s0: State, es: seq<Event>)
    requires Initial(s0) && Run(s0, es).Some?
    ensures var s := Run(s0, es).value;
            && (!s.flag ==> |s.queue| + |InHandRuns(s)| + s.lost == s0.size)
            && Distinct(s.queue)
            && (forall w <- s.queue :: w !in s.dead && !exists r :: HeldBy(s, r, w))
            && (forall r1, r2, w | HeldBy(s, r1, w) && HeldBy(s, r2, w) :: r1 == r2 && w !in s.dead)
            && (forall r | r in s.agents && s.agents[r].ReleaseChecked? :: |s.queue| < s.size == s0.size)
  {
    var s := Run(s0, es).value;
    InvInitial(s0);
    InvRun(s0, es);
    SizeRun(s0, es);
    forall r | r in s.agents && s.agents[r].ReleaseChecked? ensures |s.queue| < s.size {
      NeverFull(s, r);
    }
  }

  lemma SizeNext(s: State, e: Event)
    requires Next(s, e).Some?
    ensures Next(s, e).value.size == s.size
  {
  }

  lemma {:induction false} SizeRun(s: State, es: seq<Event>)
    requires Run(s, es).Some?
    ensures Run(s, es).value.size == s.size
    decreases |es|
  {
    if es != [] {
      SizeNext(s, es[0]);
      SizeRun(Next(s, es[0]).value, es[1..]);
    }
  }

  // Non-interleaving. The requests a worker gets form segments, each of a single
  // Run; a ping can only open a segment; a shutdown is the last request of all;
  // and a Run's calls and probes all go to the worker Acquire gave it, in the
  // order the Run issued them, none missing.
  lemma OneRunAtATime(s0: State, es: seq<Event>, w: Wid)
    requires Initial(s0) && Run(s0, es).Some? && w in Run(s0, es).value.log
    ensures var s := Run(s0, es).value;
            var l := s.log[w];
            && (forall i, j, k | 0 <= i <= j <= k < |l| && l[i].who == l[k].who :: l[j].who == l[i].who)
            && (forall i | 0 < i < |l| && l[i].op.OpPing? :: l[i - 1].who != l[i].who)
            && (forall i | 0 <= i < |l| - 1 :: !l[i].op.OpShutdown?)
            && (forall r :: AsksBy(l, r) ==
                            if r in s.issued && r in s.lease && s.lease[r] == w then s.issued[r] else [])
  {
    var s := Run(s0, es).value;
    InvInitial(s0);
    InvRun(s0, es);
    forall r
      ensures AsksBy(s.log[w], r) == if r in s.issued && r in s.lease && s.lease[r] == w then s.issued[r] else []
    {
      assert AsksMatch(s, r, w);
    }
  }

  // ---------------------------------------------------------------- Close

  // Between the check of the closed flag and the channel operation it guards.
  predicate BetweenCheckAndAct(a: Agent) {
    a.Checked? || a.ReleaseChecked?
  }

  ghost predicate NobodyBetween(s: State) {
    forall r <- s.agents :: !BetweenCheckAndAct(s.agents[r])
  }

  ghost predicate NoPanic(s: State) {
    forall r <- s.agents :: !s.agents[r].Panicked?
  }

  // Nobody straddles the moment the channel is closed.
  ghost predicate CleanClose(s: State, es: seq<Event>)
    requires Run(s, es).Some?
    decreases |es|
  {
    es == [] || ((es[0].CloseChan? ==> NobodyBetween(s)) && CleanClose(Next(s, es[0]).value, es[1..]))
  }

  // What a clean close keeps.
  ghost predicate Clean(s: State) {
    NoPanic(s) && (s.chanClosed ==> s.flag && NobodyBetween(s))
  }

  lemma CleanNext(s: State, e: Event)
    requires Clean(s) && Next(s, e).Some?
    requires s.closer.FlagSet? ==> s.flag
    requires e.CloseChan? ==> NobodyBetween(s)
    ensures Clean(Next(s, e).value)
  {
    if e.Take? {
      hide StepPut;
    } else if e.Put? {
      hide StepTake;
    } else {
      hide StepPut, StepTake, Log;
    }
  }

  lemma {:induction false} CleanRun(s: State, es: seq<Event>)
    requires Inv(s) && Clean(s) && Run(s, es).Some? && CleanClose(s, es)
    ensures Clean(Run(s, es).value)
    decreases |es|
  {
    if es != [] {
      CleanNext(s, es[0]);
      InvNext(s, es[0]);
      CleanRun(Next(s, es[0]).value, es[1..]);
    }
  }

  // Close is complete. In every run in which no Acquire and no release straddles
  // the closing of the channel: nobody panics, and once Close has returned and no
  // Run holds a worker, every worker ever spawned, replacements included, has
  // been shut down, exactly once, as the last request it got.
  lemma CloseComplete(s0: State, es: seq<Event>)
    requires Initial(s0) && Run(s0, es).Some? && CleanClose(s0, es)
    ensures var s := Run(s0, es).value;
            && NoPanic(s)
            && (s.closer.CloseDone? && InHandRuns(s) == {} ==>
                  && s.dead == s.log.Keys
                  && forall w <- s.log ::
                       && s.log[w] != []
                       && forall i | 0 <= i < |s.log[w]| :: s.log[w][i].op.OpShutdown? <==> i == |s.log[w]| - 1)
  {
    var s := Run(s0, es).value;
    InvInitial(s0);
    InvRun(s0, es);
    CleanRun(s0, es);
    if s.closer.CloseDone? && InHandRuns(s) == {} {
      NobodyHolds(s);
      forall w <- s.log ensures w in s.dead && Stopped(s.log[w]) && Framed(s.log[w]) {
      }
    }
  }

  lemma NobodyHolds(s: State)
    requires InHandRuns(s) == {}
    ensures forall r, w :: !HeldBy(s, r, w)
  {
    forall r, w ensures !HeldBy(s, r, w) {
      assert r !in InHandRuns(s);
    }
  }

  // Before the channel is closed nobody can have panicked.
  lemma {:induction false} NoPanicWhileOpen(s: State, es: seq<Event>)
    requires Inv(s) && NoPanic(s) && Run(s, es).Some? && !Run(s, es).value.chanClosed
    ensures NoPanic(Run(s, es).value) && !s.chanClosed
    decreases |es|
  {
    if es != [] {
      var t := Next(s, es[0]).value;
      InvNext(s, es[0]);
      if s.chanClosed {
        ClosedRun(s, es);
        assert false;
      }
      OpenNext(s, es[0]);
      NoPanicWhileOpen(t, es[1..]);
    }
  }

  lemma OpenNext(s: State, e: Event)
    requires NoPanic(s) && !s.chanClosed && Next(s, e).Some?
    ensures NoPanic(Next(s, e).value)
  {
  }

  lemma StaysClosed(s: State, e: Event)
    requires Next(s, e).Some? && s.chanClosed
    ensures Next(s, e).value.chanClosed
  {
  }

  lemma {:induction false} ClosedRun(s: State, es: seq<Event>)
    requires Run(s, es).Some? && s.chanClosed
    ensures Run(s, es).value.chanClosed
    decreases |es|
  {
    if es != [] {
      StaysClosed(s, es[0]);
      ClosedRun(Next(s, es[0]).value, es[1..]);
    }
  }

  // The condition is exact. At the moment the channel is closed, some
  // continuation panics if and only if somebody is between check and act.
  lemma PanicIffBetween(s0: State, es: seq<Event>)
    requires Initial(s0) && Run(s0, es).Some? && StepCloseChan(Run(s0, es).value).Some?
    ensures var s := Run(s0, es).value;
            var t := StepCloseChan(s).value;
            (exists fs :: Run(t, fs).Some? && !NoPanic(Run(t, fs).value)) <==> !NobodyBetween(s)
  {
    var s := Run(s0, es).value;
    var t := StepCloseChan(s).value;
    InvInitial(s0);
    InvRun(s0, es);
    Closing(s);
    hide Inv, StepCloseChan, Next, BetweenCheckAndAct;
    NoPanicWhileOpen(s0, es);
    InvNext(s, CloseChan);
    if NobodyBetween(s) {
      CleanNext(s, CloseChan);
      forall fs | Run(t, fs).Some? ensures NoPanic(Run(t, fs).value) {
        AlreadyClosed(t, fs);
        CleanRun(t, fs);
      }
    } else {
      var r :| r in s.agents && BetweenCheckAndAct(s.agents[r]);
      var fs := PanicRun(t, r);
    }
  }

  lemma Closing(s: State)
    requires Inv(s) && StepCloseChan(s).Some?
    ensures !s.chanClosed && s.flag && Next(s, CloseChan) == StepCloseChan(s)
    ensures var t := StepCloseChan(s).value; t.closer.Draining? && t.chanClosed && t.agents == s.agents
  {
  }

  // CloseChan happens once.
  lemma {:induction false} AlreadyClosed(s: State, es: seq<Event>)
    requires Inv(s) && s.chanClosed && Run(s, es).Some?
    ensures CleanClose(s, es)
    decreases |es|
  {
    if es != [] {
      InvNext(s, es[0]);
      StaysClosed(s, es[0]);
      ClosesOnce(s);
      hide Next, Inv, NobodyBetween;
      AlreadyClosed(Next(s, es[0]).value, es[1..]);
    }
  }

  lemma ClosesOnce(s: State)
    requires Inv(s) && s.chanClosed
    ensures Next(s, CloseChan).None?
  {
  }

  // A release sends on the closed channel at once; an Acquire receives the nil
  // worker after the closer has drained the channel.
  lemma {:induction false} PanicRun(t: State, r: RunId) returns (fs: seq<Event>)
    requires Inv(t) && t.closer.Draining? && t.chanClosed
    requires r in t.agents && BetweenCheckAndAct(t.agents[r])
    ensures Run(t, fs).Some? && !NoPanic(Run(t, fs).value)
    decreases |t.queue|
  {
    if t.agents[r].ReleaseChecked? {
      OneStep(t, Put(r));
      fs := [Put(r)];
      assert StepPut(t, r).value.agents[r].Panicked?;
    } else if t.queue == [] {
      OneStep(t, Take(r));
      fs := [Take(r)];
      assert StepTake(t, r).value.agents[r].Panicked?;
    } else {
      var ds, u := DrainOne(t);
      InvRun(t, ds);
      var gs := PanicRun(u, r);
      RunConcat(t, ds, gs);
      fs := ds + gs;
    }
  }

  lemma DrainOne(t: State) returns (ds: seq<Event>, u: State)
    requires t.closer.Draining? && t.queue != [] && t.queue[0] in t.log
    ensures Run(t, ds) == Some(u)
    ensures u.closer.Draining? && u.chanClosed == t.chanClosed && u.agents == t.agents && u.queue == t.queue[1..]
  {
    ds := [Drain, CloserStop, CloserStopped];
    var t1 := StepDrain(t).value;
    var t2 := StepCloserStop(t1).value;
    u := StepCloserStopped(t2).value;
    assert Next(t, Drain) == Some(t1) && Next(t1, CloserStop) == Some(t2) && Next(t2, CloserStopped) == Some(u);
    hide Next, StepDrain, StepCloserStop, StepCloserStopped;
    assert ds[1..] == [CloserStop, CloserStopped] && ds[1..][1..] == [CloserStopped];
    OneStep(t2, CloserStopped);
    assert Run(t1, ds[1..]) == Run(t2, ds[1..][1..]);
  }

  lemma {:induction false} RunConcat(s: State, es: seq<Event>, fs: seq<Event>)
    requires Run(s, es).Some?
    ensures Run(s, es + fs) == Run(Run(s, es).value, fs)
    decreases |es|
  {
    hide Next;
    if es == [] {
      assert es + fs == fs;
    } else {
      RunConcat(Next(s, es[0]).value, es[1..], fs);
      assert (es + fs)[1..] == es[1..] + fs;
    }
  }

  lemma OneStep(s: State, e: Event)
    requires Next(s, e).Some?
    ensures Run(s, [e]) == Next(s, e)
  {
    assert Run(Next(s, e).value, [e][1..]) == Next(s, e);
  }
}
