/** Who gets out of a wait: which sleepers are woken, and when some caller inside a
    call can always go on, over every run of the protocol. */
module Wakeups {
  import opened Common
  import opened Protocol
  import opened Completion

  ghost predicate CanMove(cfg: Config, s: State, j: nat) {
    j < |s.callers| && s.callers[j] != Idle && exists a :: Actor(a) == Some(j) && Enabled(cfg, s, a)
  }

  /** The handler is between reading `c` and clearing it, and wakes its sleeper after. */
  predicate WillWake(s: State, c: nat) {
    (s.handler.Saw? || s.handler.Marked?) && s.handler.c == c && (s.handler.extra || Stop in s.handler.bits)
  }

  /** A wake-up of `c` that is still to be marked: the engine owes an event, or the
      handler has a status to find that makes it wake, or has found one. */
  predicate ToCome(cfg: Config, s: State, c: nat)
    requires c < |s.chans|
  {
    s.chans[c].owed > 0 || Stop in s.chans[c].status || (cfg.wakesAll && s.chans[c].status != {}) || (s.handler.Saw? && WillWake(s, c))
  }

  /** Engine or handler will let the caller go on: a sleeper's wake-up is to come,
      or its channel is to be cleared before it may start. */
  predicate Expected(cfg: Config, s: State, j: nat) {
    j < |s.callers| &&
    match s.callers[j]
    case Asleep(c) => c < |s.chans| && (ToCome(cfg, s, c) || WillWake(s, c) || s.handler == Waking(c))
    case Locked(c) => Uncleared(s, c)
    case _ => false
  }

  /** Every caller inside a call can go on, is expected to, or waits for one that
      does: some caller inside a call is in one of the first two cases. */
  ghost predicate NeverStuck(cfg: Config, n: nat, m: nat) {
    forall acts, s, i :: Exec(cfg, Init(n, m), acts) == Some(s) && 0 <= i < |s.callers| && s.callers[i] != Idle ==>
      exists j :: CanMove(cfg, s, j) || Expected(cfg, s, j)
  }

  /** Follows who waits for whom to the end of the chain. */
  lemma {:induction false} ChainEnd(cfg: Config, s: State, i: nat) returns (j: nat)
    requires LockInv(s) && i < |s.callers| && s.callers[i] != Idle
    ensures j < |s.callers| && (CanMove(cfg, s, j) || Expected(cfg, s, j) || (s.callers[j].Asleep? && !cfg.abandon))
    ensures cfg.abandon && !cfg.gated ==> CanMove(cfg, s, j)
    decreases Rank(s.callers[i])
  {
    j := i;
    match s.callers[i]
    case Want(c) =>
      if s.chans[c].lock == None {
        assert Actor(Lock(i)) == Some(i) && Enabled(cfg, s, Lock(i));
      } else {
        j := ChainEnd(cfg, s, s.chans[c].lock.value);
      }
    case Locked(c) =>
      if !cfg.gated || !Uncleared(s, c) {
        assert Actor(Start(i)) == Some(i) && Enabled(cfg, s, Start(i));
      }
    case Started(c) => assert Actor(Ring(i)) == Some(i) && Enabled(cfg, s, Ring(i));
    case WantBar(_) => j := BarEnd(cfg, s, i);
    case WantBarOnly => j := BarEnd(cfg, s, i);
    case InBar(c) => assert Actor(DropBar(i)) == Some(i) && Enabled(cfg, s, DropBar(i));
    case InBarOnly => assert Actor(DropBar(i)) == Some(i) && Enabled(cfg, s, DropBar(i));
    case Waiting(c) =>
      if s.chans[c].st == RUNNING {
        assert Actor(Sleep(i)) == Some(i) && Enabled(cfg, s, Sleep(i));
      } else {
        assert Actor(Return(i)) == Some(i) && Enabled(cfg, s, Return(i));
      }
    case Asleep(c) =>
      if cfg.abandon {
        assert Actor(Leave(i)) == Some(i) && Enabled(cfg, s, Leave(i));
      }
  }

  lemma BarEnd(cfg: Config, s: State, i: nat) returns (j: nat)
    requires LockInv(s) && i < |s.callers| && (s.callers[i].WantBar? || s.callers[i].WantBarOnly?)
    ensures CanMove(cfg, s, j)
  {
    if s.conbar == None {
      j := i;
      assert Actor(TakeBar(j)) == Some(j) && Enabled(cfg, s, TakeBar(j));
    } else {
      j := s.conbar.value;
      assert Actor(DropBar(j)) == Some(j) && Enabled(cfg, s, DropBar(j));
    }
  }

  // ------------------------------------------------- wake-ups that do come

  /** The configurations without time-outs in which every sleeper is woken. */
  predicate Woken(cfg: Config) {
    cfg.events > 0 && (cfg.stops || cfg.wakesAll) && cfg.gated
  }

  ghost predicate WakeInv(cfg: Config, s: State, c: nat)
    requires c < |s.chans|
  {
    && (Uncleared(s, c) ==> s.chans[c].st != RUNNING)
    && (cfg.wakesAll && (s.handler.Saw? || s.handler.Marked?) ==> s.handler.extra)
    && (s.chans[c].lock.Some? && s.chans[c].lock.value < |s.callers| && InWait(s.callers[s.chans[c].lock.value], c) ==>
          && (s.chans[c].st == RUNNING ==> ToCome(cfg, s, c))
          && (s.callers[s.chans[c].lock.value] == Asleep(c) ==> Expected(cfg, s, s.chans[c].lock.value)))
  }

  /** The holder's own step keeps it. */
  lemma HolderWakeStep(cfg: Config, s: State, a: Action, c: nat)
    requires Woken(cfg) && !cfg.abandon && c < |s.chans| && WakeInv(cfg, s, c)
    requires Enabled(cfg, s, a) && Actor(a).Some?
    requires a.Lock? || s.chans[c].lock == Some(Actor(a).value)
    requires (a.Lock? || a.Start? || a.Ring? || a.GiveUp? || a.Sleep? || a.Return?) && s.callers[a.i].c == c
    ensures c < |Apply(cfg, s, a).chans| && WakeInv(cfg, Apply(cfg, s, a), c)
  {
  }

  /** A step of a caller that neither holds nor takes the channel changes nothing here. */
  lemma OtherWakeStep(cfg: Config, s: State, a: Action, c: nat)
    requires Woken(cfg) && !cfg.abandon && c < |s.chans| && WakeInv(cfg, s, c)
    requires Enabled(cfg, s, a) && Actor(a).Some?
    requires s.chans[c].lock != Some(Actor(a).value)
    requires a.Lock? || a.Start? || a.Ring? || a.GiveUp? || a.Sleep? || a.Return? ==> s.callers[a.i].c != c
    ensures c < |Apply(cfg, s, a).chans| && WakeInv(cfg, Apply(cfg, s, a), c)
  {
    var s' := Apply(cfg, s, a);
    assert s'.chans[c] == s.chans[c] && s'.handler == s.handler;
    if s.chans[c].lock.Some? && s.chans[c].lock.value < |s.callers| {
      assert s'.callers[s.chans[c].lock.value] == s.callers[s.chans[c].lock.value];
    }
    hide Apply, Enabled;
  }

  /** Register-window steps of the holder keep it out of the wait. */
  lemma BarWakeStep(cfg: Config, s: State, a: Action, c: nat)
    requires c < |s.chans| && WakeInv(cfg, s, c)
    requires Enabled(cfg, s, a) && (a.AskBar? || a.TakeBar? || a.DropBar?) && s.chans[c].lock == Some(a.i)
    ensures c < |Apply(cfg, s, a).chans| && WakeInv(cfg, Apply(cfg, s, a), c)
  {
  }

  lemma EngineWakeStep(cfg: Config, s: State, a: Action, c: nat)
    requires Woken(cfg) && !cfg.abandon && c < |s.chans| && WakeInv(cfg, s, c)
    requires Enabled(cfg, s, a) && (a.Raise? || a.RaiseLate?)
    ensures c < |Apply(cfg, s, a).chans| && WakeInv(cfg, Apply(cfg, s, a), c)
  {
  }

  lemma HandlerWakeStep(cfg: Config, s: State, a: Action, c: nat)
    requires Woken(cfg) && !cfg.abandon && c < |s.chans| && WakeInv(cfg, s, c)
    requires Enabled(cfg, s, a) && (a.See? || a.Mark? || a.Clear? || a.Wake?)
    ensures c < |Apply(cfg, s, a).chans| && WakeInv(cfg, Apply(cfg, s, a), c)
  {
  }

  lemma WakeStep(cfg: Config, s: State, a: Action, c: nat)
    requires Woken(cfg) && !cfg.abandon
    requires LockInv(s) && Enabled(cfg, s, a) && c < |s.chans| && WakeInv(cfg, s, c)
    ensures c < |Apply(cfg, s, a).chans| && WakeInv(cfg, Apply(cfg, s, a), c)
  {
    hide Apply, WakeInv;
    if Actor(a).None? {
      hide LockInv, Enabled;
      if a.Raise? || a.RaiseLate? {
        EngineWakeStep(cfg, s, a, c);
      } else {
        HandlerWakeStep(cfg, s, a, c);
      }
    } else if a.Call? {
      OtherWakeStep(cfg, s, a, c);
    } else if a.AskBar? || a.TakeBar? || a.DropBar? {
      if s.chans[c].lock == Some(a.i) {
        BarWakeStep(cfg, s, a, c);
      } else {
        OtherWakeStep(cfg, s, a, c);
      }
    } else {
      ChanStepHolder(cfg, s, a);
      hide LockInv, Enabled;
      if s.callers[a.i].c == c {
        HolderWakeStep(cfg, s, a, c);
      } else {
        OtherWakeStep(cfg, s, a, c);
      }
    }
  }

  lemma ChanStepHolder(cfg: Config, s: State, a: Action)
    requires LockInv(s) && Enabled(cfg, s, a)
    requires a.Lock? || a.Start? || a.Ring? || a.GiveUp? || a.Sleep? || a.Return? || a.Leave?
    ensures a.i < |s.callers| && (s.callers[a.i].Want? || Holds(s.callers[a.i], s.callers[a.i].c))
    ensures a.Lock? <==> s.callers[a.i].Want?
    ensures forall c | 0 <= c < |s.chans| :: s.chans[c].lock == Some(a.i) <==> Holds(s.callers[a.i], c)
  {
  }

  lemma {:induction false} ReachableWakes(cfg: Config, n: nat, m: nat, acts: seq<Action>, s: State, c: nat)
    requires Woken(cfg) && !cfg.abandon && Exec(cfg, Init(n, m), acts) == Some(s) && c < |s.chans|
    ensures WakeInv(cfg, s, c)
  {
    if acts != [] {
      hide WakeInv, Enabled, Apply, LockInv;
      var t := Exec(cfg, Init(n, m), acts[..|acts| - 1]).value;
      ReachableLocks(cfg, n, m, acts[..|acts| - 1], t);
      LockStep(cfg, t, acts[|acts| - 1]);
      ReachableWakes(cfg, n, m, acts[..|acts| - 1], t, c);
      WakeStep(cfg, t, acts[|acts| - 1], c);
    }
  }

  // ------------------------------------------- wake-ups that do not come

  /** Caller `i` sleeps, every event of its channel is spent, nothing is left in
      the status and the handler is elsewhere. */
  ghost predicate Stranded(s: State, i: nat) {
    && i < |s.callers| && s.callers[i].Asleep? && s.callers[i].c < |s.chans|
    && (var c := s.callers[i].c; var ch := s.chans[c];
        && ch.owed == 0 && ch.late == 0 && ch.status == {} && (s.handler.Scanning? || s.handler.c != c))
  }

  lemma StrandedStep(cfg: Config, s: State, a: Action, i: nat)
    requires LockInv(s) && Enabled(cfg, s, a) && Stranded(s, i) && a != Leave(i)
    ensures Stranded(Apply(cfg, s, a), i) && Apply(cfg, s, a).callers[i] == s.callers[i]
  {
    var c := s.callers[i].c;
    HolderIs(s, i, c);
    if Actor(a).Some? && Actor(a).value != i {
      var j := Actor(a).value;
      if s.callers[j].Locked? || s.callers[j].Started? {
        HolderIs(s, j, s.callers[j].c);
      }
    }
    hide LockInv, ChanOf, HoldsBar, Holds;
  }

  /** A stranded caller sleeps on in every continuation of the run, with its
      channel locked, unless it abandons the wait. */
  lemma {:induction false} StrandedForever(cfg: Config, n: nat, m: nat, acts: seq<Action>, s: State, i: nat,
                                           more: seq<Action>, s': State)
    requires Exec(cfg, Init(n, m), acts) == Some(s) && Stranded(s, i)
    requires Exec(cfg, s, more) == Some(s') && Leave(i) !in more
    ensures Stranded(s', i) && s'.callers[i] == s.callers[i] && s'.chans[s'.callers[i].c].lock == Some(i) && LockInv(s')
  {
    hide Enabled, Apply, LockInv;
    ReachableLocks(cfg, n, m, acts, s);
    if more == [] {
      HolderIs(s, i, s.callers[i].c);
    } else {
      hide Stranded;
      var last := |more| - 1;
      var t := Exec(cfg, s, more[..last]).value;
      StrandedForever(cfg, n, m, acts, s, i, more[..last], t);
      StrandedStep(cfg, t, more[last], i);
      LockStep(cfg, t, more[last]);
      StrandedHolds(s', i);
    }
  }

  lemma StrandedHolds(s: State, i: nat)
    requires LockInv(s) && Stranded(s, i)
    ensures s.chans[s.callers[i].c].lock == Some(i)
  {
    HolderIs(s, i, s.callers[i].c);
  }

  /** Caller 0 alone, stranded, with all the others idle. */
  ghost predicate AloneStranded(s: State) {
    Stranded(s, 0) && s.handler.Scanning? && forall j | 0 < j < |s.callers| :: s.callers[j] == Idle
  }

  /** An engine that raises nothing. */
  lemma NoEvent(cfg: Config, n: nat, m: nat) returns (acts: seq<Action>, s: State)
    requires cfg.events == 0 && n > 0 && m > 0
    ensures Exec(cfg, Init(n, m), acts) == Some(s) && AloneStranded(s)
  {
    acts, s := [], Init(n, m);
    assert Exec(cfg, Init(n, m), acts) == Some(s);
    hide Exec;
    acts, s := Starts(cfg, n, m, acts, s);
    acts, s := Then(cfg, n, m, acts, s, Ring(0));
    acts, s := Then(cfg, n, m, acts, s, Sleep(0));
  }

  /** The token loop marks an abort and wakes nobody: the state is no longer
      RUNNING, yet its caller sleeps. */
  lemma NoStopBit(cfg: Config, n: nat, m: nat) returns (acts: seq<Action>, s: State)
    requires cfg.events > 0 && !cfg.stops && !cfg.wakesAll && n > 0 && m > 0
    ensures Exec(cfg, Init(n, m), acts) == Some(s) && AloneStranded(s) && s.chans[0].st == COMPLETED
  {
    acts, s := [], Init(n, m);
    assert Exec(cfg, Init(n, m), acts) == Some(s);
    hide Exec;
    acts, s := Starts(cfg, n, m, acts, s);
    acts, s := Then(cfg, n, m, acts, s, Ring(0));
    acts, s := Then(cfg, n, m, acts, s, Sleep(0));
    acts, s := Spend(cfg, n, m, acts, s, {Abort});
    acts, s := Marks(cfg, n, m, acts, s);
    acts, s := Then(cfg, n, m, acts, s, Clear);
  }

  /** The caller whose completion was wiped is woken once, by the clear that wiped
      it, finds RUNNING and sleeps again. */
  lemma WipedStop(cfg: Config, n: nat, m: nat) returns (acts: seq<Action>, s: State)
    requires cfg.events > 0 && !cfg.gated && n > 0 && m > 0
    ensures Exec(cfg, Init(n, m), acts) == Some(s) && AloneStranded(s) && s.chans[0].st == RUNNING
  {
    hide Exec, Init;
    acts, s := LostReachable(cfg, n, m);
    acts, s := Then(cfg, n, m, acts, s, Wake);
    acts, s := Then(cfg, n, m, acts, s, Sleep(0));
  }

  lemma StrandedIsStuck(cfg: Config, s: State)
    requires AloneStranded(s) && !cfg.abandon
    ensures |s.callers| > 0 && s.callers[0] != Idle && !exists j :: CanMove(cfg, s, j) || Expected(cfg, s, j)
  {
  }

  /** Deadlock freedom, exactly: in every reachable state some caller inside a call
      can go on or is expected to, if and only if waits may be abandoned, or every
      transfer raises an event, every event holds the stop bit or every scan wakes,
      and no transfer starts between the handler's mark and its clear. */
  lemma DeadlockFree(cfg: Config, n: nat, m: nat)
    requires n > 0 && m > 0
    ensures NeverStuck(cfg, n, m) <==> cfg.abandon || Woken(cfg)
  {
    hide Exec, Init, Enabled, CanMove, Expected, AloneStranded;
    if cfg.abandon || Woken(cfg) {
      forall acts, s, i | Exec(cfg, Init(n, m), acts) == Some(s) && 0 <= i < |s.callers| && s.callers[i] != Idle
        ensures exists j :: CanMove(cfg, s, j) || Expected(cfg, s, j)
      {
        var j := SomeoneMoves(cfg, n, m, acts, s, i);
      }
    } else {
      var acts, s;
      if cfg.events == 0 {
        acts, s := NoEvent(cfg, n, m);
      } else if !cfg.stops && !cfg.wakesAll {
        acts, s := NoStopBit(cfg, n, m);
      } else {
        acts, s := WipedStop(cfg, n, m);
      }
      StrandedIsStuck(cfg, s);
    }
  }

  /** With time-outs and no gate, as in the driver, some caller inside a call can
      always take a step of its own. */
  lemma DriverMoves(cfg: Config, n: nat, m: nat, acts: seq<Action>, s: State, i: nat)
    requires cfg.abandon && !cfg.gated
    requires Exec(cfg, Init(n, m), acts) == Some(s) && i < |s.callers| && s.callers[i] != Idle
    ensures exists j :: CanMove(cfg, s, j)
  {
    var j := SomeoneMoves(cfg, n, m, acts, s, i);
  }

  lemma SomeoneMoves(cfg: Config, n: nat, m: nat, acts: seq<Action>, s: State, i: nat) returns (j: nat)
    requires Exec(cfg, Init(n, m), acts) == Some(s) && i < |s.callers| && s.callers[i] != Idle
    requires cfg.abandon || Woken(cfg)
    ensures CanMove(cfg, s, j) || Expected(cfg, s, j)
    ensures cfg.abandon && !cfg.gated ==> CanMove(cfg, s, j)
  {
    ReachableLocks(cfg, n, m, acts, s);
    j := ChainEnd(cfg, s, i);
    if s.callers[j].Asleep? && !cfg.abandon {
      var c := s.callers[j].c;
      HolderIs(s, j, c);
      ReachableWakes(cfg, n, m, acts, s, c);
    }
  }
}
