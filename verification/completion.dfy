/** When a completion is premature, and how one is lost, over every run of the
    protocol. */
module Completion {
  import opened Common
  import opened Protocol

  /** The two conditions under which no run completes a transfer early: engines
      that raise nothing, or one event per transfer with every wait seen through. */
  predicate Safe(cfg: Config) {
    cfg.events == 0 || (cfg.events == 1 && !cfg.abandon)
  }

  /** The current transfer of `c` has raised its event and is still RUNNING. */
  predicate Due(ch: Chan) { ch.st == RUNNING && ch.raised }

  ghost predicate ChanInv(s: State, c: nat)
    requires c < |s.chans|
  {
    var ch := s.chans[c];
    && ch.late == 0 && ch.owed <= 1
    && (ch.owed > 0 ==> ch.st == RUNNING && !ch.raised)
    && (ch.owed > 0 || Due(ch) ==>
          ch.lock.Some? && ch.lock.value < |s.callers| && InWait(s.callers[ch.lock.value], c))
    && (ch.status != {} ==> Due(ch) || (Uncleared(s, c) && ch.status <= s.handler.bits))
    && (s.handler.Saw? && s.handler.c == c ==> Due(ch) && ch.status == s.handler.bits != {})
  }

  ghost predicate CallerInv(s: State, i: nat)
    requires i < |s.callers|
  {
    var p := s.callers[i];
    (p.Started? || p.WantBar? || p.InBar?) && p.c < |s.chans| ==> s.chans[p.c].st == RUNNING && !s.chans[p.c].raised
  }

  ghost predicate Inv(s: State) {
    && LockInv(s)
    && (forall c | 0 <= c < |s.chans| :: ChanInv(s, c))
    && (forall i | 0 <= i < |s.callers| :: CallerInv(s, i))
    && !s.premature
  }

  /** Every step keeps the invariant of a channel it may touch, because only the
      holder of the channel's lock moves it while its event is owed or due. */
  lemma ChanStep(cfg: Config, s: State, a: Action, c: nat)
    requires cfg.events == 1 && !cfg.abandon
    requires Inv(s) && Enabled(cfg, s, a) && c < |s.chans|
    ensures c < |Apply(cfg, s, a).chans| && ChanInv(Apply(cfg, s, a), c)
  {
    if Actor(a).Some? {
      hide Inv, Enabled, Apply, ChanInv;
      CallerChanStep(cfg, s, a, c);
    } else {
      assert ChanInv(s, c);
    }
  }

  lemma CallerChanStep(cfg: Config, s: State, a: Action, c: nat)
    requires cfg.events == 1 && !cfg.abandon && Actor(a).Some?
    requires Inv(s) && Enabled(cfg, s, a) && c < |s.chans|
    ensures c < |Apply(cfg, s, a).chans| && ChanInv(Apply(cfg, s, a), c)
  {
    assert ChanInv(s, c);
    var i := Actor(a).value;
    assert CallerInv(s, i);
    hide LockInv, ChanOf, HoldsBar, CallerInv;
    match a
    case Start(_) => HolderIs(s, i, s.callers[i].c);
    case Ring(_) =>
      HolderIs(s, i, s.callers[i].c);
      StartedChan(s, i);
    case GiveUp(_) => HolderIs(s, i, s.callers[i].c);
    case Return(_) => HolderIs(s, i, s.callers[i].c);
    case _ =>
  }

  lemma StartedChan(s: State, i: nat)
    requires i < |s.callers| && s.callers[i].Started? && s.callers[i].c < |s.chans| && CallerInv(s, i)
    ensures s.chans[s.callers[i].c].st == RUNNING && !s.chans[s.callers[i].c].raised
  {
  }

  lemma HolderIs(s: State, i: nat, c: nat)
    requires LockInv(s) && i < |s.callers| && c < |s.chans| && Holds(s.callers[i], c)
    ensures s.chans[c].lock == Some(i)
  {
  }

  lemma CallerStep(cfg: Config, s: State, a: Action, i: nat)
    requires cfg.events == 1 && !cfg.abandon
    requires Inv(s) && Enabled(cfg, s, a) && i < |s.callers|
    ensures i < |Apply(cfg, s, a).callers| && CallerInv(Apply(cfg, s, a), i)
  {
    assert CallerInv(s, i);
    hide ChanInv;
    var p := s.callers[i];
    if Actor(a).Some? {
      hide ChanOf, HoldsBar;
      if a.Start? {
        HolderIs(s, a.i, s.callers[a.i].c);
      }
    } else if (p.Started? || p.WantBar? || p.InBar?) && p.c < |s.chans| {
      HolderNotDue(s, i, p.c);
      hide LockInv, ChanOf, HoldsBar;
    } else {
      hide LockInv, ChanOf, HoldsBar;
    }
  }

  /** A holder outside its wait has a channel without an event owed or due. */
  lemma HolderNotDue(s: State, i: nat, c: nat)
    requires Inv(s) && i < |s.callers| && c < |s.chans| && Holds(s.callers[i], c) && !InWait(s.callers[i], c)
    ensures s.chans[c].owed == 0 && s.chans[c].late == 0 && !Due(s.chans[c]) && !(s.handler.Saw? && s.handler.c == c)
  {
    HolderIs(s, i, c);
    assert ChanInv(s, c);
  }

  lemma MarkIsDue(s: State)
    requires Inv(s) && s.handler.Saw? && s.handler.c < |s.chans|
    ensures Due(s.chans[s.handler.c])
  {
    assert ChanInv(s, s.handler.c);
  }

  lemma InvStep(cfg: Config, s: State, a: Action)
    requires cfg.events == 1 && !cfg.abandon && Inv(s) && Enabled(cfg, s, a)
    ensures Inv(Apply(cfg, s, a))
  {
    hide ChanInv, CallerInv, LockInv;
    var s' := Apply(cfg, s, a);
    LockStep(cfg, s, a);
    forall c | 0 <= c < |s'.chans| ensures ChanInv(s', c) {
      ChanStep(cfg, s, a, c);
    }
    forall i | 0 <= i < |s'.callers| ensures CallerInv(s', i) {
      CallerStep(cfg, s, a, i);
    }
    if a.Mark? {
      MarkIsDue(s);
    }
  }

  lemma {:induction false} ReachableInv(cfg: Config, n: nat, m: nat, acts: seq<Action>, s: State)
    requires cfg.events == 1 && !cfg.abandon && Exec(cfg, Init(n, m), acts) == Some(s)
    ensures Inv(s)
  {
    hide Enabled, Apply;
    if acts == [] {
      InitLocks(n, m);
    } else {
      hide Inv;
      var t := Exec(cfg, Init(n, m), acts[..|acts| - 1]).value;
      ReachableInv(cfg, n, m, acts[..|acts| - 1], t);
      InvStep(cfg, t, acts[|acts| - 1]);
    }
  }

  /** An engine that raises nothing leaves the handler nothing to see. */
  ghost predicate Quiet(s: State) {
    && (forall c | 0 <= c < |s.chans| ::
          s.chans[c].owed == 0 && s.chans[c].late == 0 && s.chans[c].status == {} && !s.chans[c].raised)
    && s.handler.Scanning? && !s.premature
  }

  lemma QuietStep(cfg: Config, s: State, a: Action)
    requires cfg.events == 0 && Quiet(s) && Enabled(cfg, s, a)
    ensures Quiet(Apply(cfg, s, a))
  {
  }

  lemma {:induction false} ReachableQuiet(cfg: Config, n: nat, m: nat, acts: seq<Action>, s: State)
    requires cfg.events == 0 && Exec(cfg, Init(n, m), acts) == Some(s)
    ensures Quiet(s)
  {
    if acts != [] {
      hide Quiet, Enabled, Apply;
      var t := Exec(cfg, Init(n, m), acts[..|acts| - 1]).value;
      ReachableQuiet(cfg, n, m, acts[..|acts| - 1], t);
      QuietStep(cfg, t, acts[|acts| - 1]);
    }
  }

  ghost predicate NeverPremature(cfg: Config, n: nat, m: nat) {
    forall acts, s :: Exec(cfg, Init(n, m), acts) == Some(s) ==> !s.premature
  }

  /** Caller 0 starts a transfer on channel 0. */
  lemma Starts(cfg: Config, n: nat, m: nat, acts: seq<Action>, s: State) returns (acts': seq<Action>, s': State)
    requires Exec(cfg, Init(n, m), acts) == Some(s) && |s.chans| > 0 && |s.callers| > 0
    requires s.callers[0] == Idle && s.chans[0].lock == None && (cfg.gated ==> !Uncleared(s, 0))
    ensures Exec(cfg, Init(n, m), acts') == Some(s')
    ensures s' == With(At(s, 0, Started(0)), 0,
                       Chan(Some(0), RUNNING, s.chans[0].status, 0, s.chans[0].late + s.chans[0].owed, false))
  {
    hide Exec, Init;
    acts', s' := Then(cfg, n, m, acts, s, Call(0, 0));
    acts', s' := Then(cfg, n, m, acts', s', Lock(0));
    assert s' == With(At(s, 0, Locked(0)), 0, s.chans[0].(lock := Some(0)));
    acts', s' := Then(cfg, n, m, acts', s', Start(0));
  }

  /** The engine raises all it owes on channel 0, `bits` each time. */
  lemma {:induction false} Spend(cfg: Config, n: nat, m: nat, acts: seq<Action>, s: State, bits: set<Bit>)
    returns (acts': seq<Action>, s': State)
    requires Exec(cfg, Init(n, m), acts) == Some(s) && |s.chans| > 0 && s.chans[0].owed > 0
    requires bits != {} && (cfg.stops ==> Stop in bits)
    ensures Exec(cfg, Init(n, m), acts') == Some(s')
    ensures s' == With(s, 0, s.chans[0].(owed := 0, late := 0, raised := true, status := s.chans[0].status + bits))
    decreases s.chans[0].late, s.chans[0].owed
  {
    if s.chans[0].late > 0 {
      acts', s' := Then(cfg, n, m, acts, s, RaiseLate(0, bits));
      acts', s' := Spend(cfg, n, m, acts', s', bits);
    } else {
      acts', s' := Then(cfg, n, m, acts, s, Raise(0, bits));
      if s.chans[0].owed > 1 {
        acts', s' := Spend(cfg, n, m, acts', s', bits);
      }
    }
  }

  /** The handler finds channel 0's status and marks the channel. */
  lemma Marks(cfg: Config, n: nat, m: nat, acts: seq<Action>, s: State) returns (acts': seq<Action>, s': State)
    requires Exec(cfg, Init(n, m), acts) == Some(s) && |s.chans| > 0 && s.handler.Scanning? && s.chans[0].status != {}
    ensures Exec(cfg, Init(n, m), acts') == Some(s')
    ensures s' == With(s, 0, s.chans[0].(st := COMPLETED)).(
      handler := Marked(0, s.chans[0].status, cfg.wakesAll),
      premature := s.premature || (s.chans[0].st == RUNNING && !s.chans[0].raised))
  {
    hide Exec, Init;
    acts', s' := Then(cfg, n, m, acts, s, See(0, cfg.wakesAll));
    acts', s' := Then(cfg, n, m, acts', s', Mark);
  }

  /** A caller that leaves its wait lets the next transfer be completed by the
      event of the one it left. */
  lemma AbandonedEvent(cfg: Config, n: nat, m: nat) returns (acts: seq<Action>, s: State)
    requires cfg.events > 0 && cfg.abandon && n > 0 && m > 0
    ensures Exec(cfg, Init(n, m), acts) == Some(s) && s.premature
  {
    acts, s := [], Init(n, m);
    assert Exec(cfg, Init(n, m), acts) == Some(s);
    hide Exec;
    acts, s := Starts(cfg, n, m, acts, s);
    acts, s := Then(cfg, n, m, acts, s, Ring(0));
    acts, s := Then(cfg, n, m, acts, s, Leave(0));
    acts, s := Starts(cfg, n, m, acts, s);
    acts, s := Then(cfg, n, m, acts, s, RaiseLate(0, {Stop}));
    acts, s := Marks(cfg, n, m, acts, s);
  }

  /** A transfer that raises a second event, say watermark and then stop, lets
      that second event complete the transfer after it. */
  lemma SecondEvent(cfg: Config, n: nat, m: nat) returns (acts: seq<Action>, s: State)
    requires cfg.events > 1 && n > 0 && m > 0
    ensures Exec(cfg, Init(n, m), acts) == Some(s) && s.premature
  {
    hide Exec, Init;
    acts, s := FirstRound(cfg, n, m);
    acts, s := Then(cfg, n, m, acts, s, Clear);
    acts, s := Then(cfg, n, m, acts, s, Wake);
    acts, s := Then(cfg, n, m, acts, s, Return(0));
    acts, s := Starts(cfg, n, m, acts, s);
    acts, s := Then(cfg, n, m, acts, s, RaiseLate(0, {Stop}));
    acts, s := Marks(cfg, n, m, acts, s);
  }

  /** A first transfer up to the handler's mark. */
  lemma FirstRound(cfg: Config, n: nat, m: nat) returns (acts: seq<Action>, s: State)
    requires cfg.events > 0 && n > 0 && m > 0
    ensures Exec(cfg, Init(n, m), acts) == Some(s)
    ensures |s.chans| == n && |s.callers| == m && s.handler == Marked(0, {Stop}, cfg.wakesAll) && s.callers[0] == Waiting(0)
    ensures forall j | 0 < j < m :: s.callers[j] == Idle
    ensures s.chans[0] == Chan(Some(0), COMPLETED, {Stop}, cfg.events - 1, 0, true)
  {
    acts, s := [], Init(n, m);
    assert Exec(cfg, Init(n, m), acts) == Some(s);
    hide Exec;
    acts, s := Starts(cfg, n, m, acts, s);
    acts, s := Then(cfg, n, m, acts, s, Ring(0));
    acts, s := Then(cfg, n, m, acts, s, Raise(0, {Stop}));
    acts, s := Marks(cfg, n, m, acts, s);
  }

  /** No run completes a channel before the transfer RUNNING on it has raised its
      event, exactly under Safe. */
  lemma PrematureExactly(cfg: Config, n: nat, m: nat)
    requires n > 0 && m > 0
    ensures NeverPremature(cfg, n, m) <==> Safe(cfg)
  {
    hide Exec, Init, Inv, Quiet;
    if cfg.events == 0 {
      forall acts, s | Exec(cfg, Init(n, m), acts) == Some(s) ensures !s.premature {
        ReachableQuiet(cfg, n, m, acts, s);
        QuietNotPremature(s);
      }
    } else if cfg.events == 1 && !cfg.abandon {
      forall acts, s | Exec(cfg, Init(n, m), acts) == Some(s) ensures !s.premature {
        ReachableInv(cfg, n, m, acts, s);
        InvNotPremature(s);
      }
    } else if cfg.abandon {
      var acts, s := AbandonedEvent(cfg, n, m);
    } else {
      var acts, s := SecondEvent(cfg, n, m);
    }
  }

  lemma QuietNotPremature(s: State) requires Quiet(s) ensures !s.premature {}

  lemma InvNotPremature(s: State) requires Inv(s) ensures !s.premature {}

  /** The event of the current transfer has been wiped: still RUNNING, nothing in
      the status register, and the handler is not about to complete it. */
  ghost predicate Lost(s: State, c: nat) {
    c < |s.chans| && Due(s.chans[c]) && s.chans[c].status == {} && !(s.handler.Saw? && s.handler.c == c)
  }

  /** One step wipes an event exactly when it clears a channel on which the next
      transfer is already due, under no bit but those read before. */
  lemma LostAtClear(cfg: Config, s: State, a: Action, c: nat)
    requires Enabled(cfg, s, a) && !Lost(s, c) && c < |s.chans|
    ensures Lost(Apply(cfg, s, a), c) <==>
      a == Clear && s.handler.c == c && Due(s.chans[c]) && s.chans[c].status <= s.handler.bits
  {
    if a == Clear && s.handler.c == c {
      NothingLeft(s.chans[c].status, s.handler.bits);
    }
  }

  lemma NothingLeft(a: set<Bit>, b: set<Bit>)
    ensures a - b == {} <==> a <= b
  {
    if a - b == {} {
      forall x | x in a ensures x in b {
        assert x !in a - b;
      }
    }
  }

  /** A transfer is started on `c` between the handler's mark and its clear. */
  predicate Overtakes(s: State, a: Action, c: nat) {
    a.Start? && a.i < |s.callers| && s.callers[a.i] == Locked(c) && Uncleared(s, c)
  }

  /** The state before action `k` of a run. */
  ghost predicate Before(cfg: Config, n: nat, m: nat, acts: seq<Action>, k: nat, t: State) {
    k < |acts| && Exec(cfg, Init(n, m), acts[..k]) == Some(t)
  }

  /** A run of any configuration in which no transfer overtakes the handler on `c`
      wipes no completion of `c`. */
  lemma {:induction false} NotOvertaken(cfg: Config, n: nat, m: nat, acts: seq<Action>, s: State, c: nat)
    requires Exec(cfg, Init(n, m), acts) == Some(s) && c < |s.chans|
    requires forall k: nat, t :: Before(cfg, n, m, acts, k, t) ==> !Overtakes(t, acts[k], c)
    ensures !Lost(s, c) && (Uncleared(s, c) ==> s.chans[c].st != RUNNING)
  {
    if acts != [] {
      hide Lost;
      var last := |acts| - 1;
      var t := Exec(cfg, Init(n, m), acts[..last]).value;
      ReachableLocks(cfg, n, m, acts, s);
      ReachableLocks(cfg, n, m, acts[..last], t);
      assert Before(cfg, n, m, acts, last, t);
      forall k: nat, u | Before(cfg, n, m, acts[..last], k, u) ensures !Overtakes(u, acts[..last][k], c) {
        assert acts[..last][..k] == acts[..k];
        assert Before(cfg, n, m, acts, k, u);
      }
      NotOvertaken(cfg, n, m, acts[..last], t, c);
      hide Before;
      LostAtClear(cfg, t, acts[last], c);
    }
  }

  ghost predicate NeverLost(cfg: Config, n: nat, m: nat) {
    forall acts, s, c :: Exec(cfg, Init(n, m), acts) == Some(s) ==> !Lost(s, c)
  }

  /** No run loses a completion, exactly when the engine raises nothing or no
      transfer may start between the handler's mark and its clear. The handler
      marks first, so in the driver a whole transfer fits in between. */
  lemma LostExactly(cfg: Config, n: nat, m: nat)
    requires n > 0 && m > 0
    ensures NeverLost(cfg, n, m) <==> cfg.events == 0 || cfg.gated
  {
    if cfg.events == 0 {
      forall acts, s, c | Exec(cfg, Init(n, m), acts) == Some(s) ensures !Lost(s, c) {
        ReachableQuiet(cfg, n, m, acts, s);
      }
    } else if cfg.gated {
      forall acts, s, c | Exec(cfg, Init(n, m), acts) == Some(s) ensures !Lost(s, c) {
        GatedNotLost(cfg, n, m, acts, s, c);
      }
    } else {
      var acts, s := LostReachable(cfg, n, m);
    }
  }

  lemma GatedNotLost(cfg: Config, n: nat, m: nat, acts: seq<Action>, s: State, c: nat)
    requires cfg.gated && Exec(cfg, Init(n, m), acts) == Some(s)
    ensures !Lost(s, c)
  {
    if c < |s.chans| {
      forall k: nat, t | Before(cfg, n, m, acts, k, t) ensures !Overtakes(t, acts[k], c) {
        RunEnabled(cfg, Init(n, m), acts, k, t);
      }
      NotOvertaken(cfg, n, m, acts, s, c);
    }
  }

  /** Every action of a run was enabled when taken. */
  lemma {:induction false} RunEnabled(cfg: Config, s: State, acts: seq<Action>, k: nat, t: State)
    requires Exec(cfg, s, acts).Some? && k < |acts| && Exec(cfg, s, acts[..k]) == Some(t)
    ensures Enabled(cfg, t, acts[k])
  {
    hide Enabled, Apply;
    if k < |acts| - 1 {
      assert acts[..|acts| - 1][..k] == acts[..k];
      RunEnabled(cfg, s, acts[..|acts| - 1], k, t);
    }
  }

  /** It does happen in every configuration that allows it, with one channel and
      one caller, and leaves the caller in its wait with no event to come. */
  lemma LostReachable(cfg: Config, n: nat, m: nat) returns (acts: seq<Action>, s: State)
    requires cfg.events > 0 && !cfg.gated && n > 0 && m > 0
    ensures Exec(cfg, Init(n, m), acts) == Some(s) && Lost(s, 0)
    ensures |s.callers| == m && s.callers[0] == Asleep(0) && s.handler == Waking(0)
    ensures forall j | 0 < j < m :: s.callers[j] == Idle
    ensures s.chans[0].owed == 0 && s.chans[0].late == 0
  {
    hide Exec, Init;
    acts, s := FirstRound(cfg, n, m);
    acts, s := Then(cfg, n, m, acts, s, Return(0));
    acts, s := Starts(cfg, n, m, acts, s);
    acts, s := Then(cfg, n, m, acts, s, Ring(0));
    acts, s := Then(cfg, n, m, acts, s, Sleep(0));
    acts, s := Spend(cfg, n, m, acts, s, {Stop});
    acts, s := Then(cfg, n, m, acts, s, Clear);
  }

  lemma LostStep(cfg: Config, s: State, a: Action, c: nat, i: nat)
    requires LockInv(s) && Enabled(cfg, s, a) && Lost(s, c) && s.chans[c].owed == 0 && s.chans[c].late == 0
    requires i < |s.callers| && InWait(s.callers[i], c) && a != Leave(i)
    ensures var s' := Apply(cfg, s, a);
      Lost(s', c) && s'.chans[c].owed == 0 && s'.chans[c].late == 0 && i < |s'.callers| && InWait(s'.callers[i], c)
  {
    HolderIs(s, i, c);
    if Actor(a).Some? && Actor(a).value != i && Actor(a).value < |s.callers| {
      var j := Actor(a).value;
      if s.callers[j].Locked? || s.callers[j].Started? || s.callers[j].Waiting? || s.callers[j].Asleep? {
        assert Holds(s.callers[j], s.callers[j].c);
        if s.callers[j].c == c {
          HolderIs(s, j, c);
        }
      }
    }
    hide LockInv, ChanOf, HoldsBar, Holds;
  }

  /** Once lost with its events spent, a completion never comes: in no
      continuation of the run does its caller get out of the wait, unless by
      abandoning it. */
  lemma {:induction false} LostForever(cfg: Config, n: nat, m: nat, acts: seq<Action>, s: State, c: nat, i: nat,
                                       more: seq<Action>, s': State)
    requires Exec(cfg, Init(n, m), acts) == Some(s) && Lost(s, c) && s.chans[c].owed == 0 && s.chans[c].late == 0
    requires i < |s.callers| && InWait(s.callers[i], c)
    requires Exec(cfg, s, more) == Some(s') && Leave(i) !in more
    ensures Lost(s', c) && s'.chans[c].owed == 0 && s'.chans[c].late == 0
    ensures i < |s'.callers| && InWait(s'.callers[i], c) && LockInv(s')
  {
    hide Lost, LockInv, Enabled, Apply, InWait;
    ReachableLocks(cfg, n, m, acts, s);
    if more != [] {
      var last := |more| - 1;
      var t := Exec(cfg, s, more[..last]).value;
      LostForever(cfg, n, m, acts, s, c, i, more[..last], t);
      LostStep(cfg, t, more[last], c, i);
      LockStep(cfg, t, more[last]);
    }
  }
}
