/** Every run of Composed goes on to one in which all calls have returned, where
    one event comes of each transfer and every sleeper is woken. */
module ComposedProgress {
  import opened Common
  import opened Words
  import opened Memory
  import opened Engine
  import opened Registers
  import opened Channel
  import opened Composed
  import I = Interleave
  import P = Protocol
  import C = Completion
  import W = Wakeups
  import R = Progress

  /** One event a transfer, no wait abandoned, and every sleeper woken. */
  predicate Seen(cfg: P.Config) { cfg.events == 1 && !cfg.abandon && W.Woken(cfg) }

  ghost predicate FullInv(strict: bool, cfg: P.Config, calls: seq<I.Call>, w0: World, s: State)
    requires I.CallsOk(calls) && Small(calls)
  {
    && Inv(cfg, calls, s) && I.Inv(strict, calls, w0, s.mem)
    && (forall c | 0 <= c < |s.sync.chans| :: W.WakeInv(cfg, s.sync, c))
    && HandlerOn(s.sync)
  }

  predicate HandlerOn(s: P.State) { s.handler.Scanning? || s.handler.c < |s.chans| }

  lemma HandlerStays(cfg: P.Config, s: P.State, a: P.Action)
    requires HandlerOn(s) && P.Enabled(cfg, s, a)
    ensures HandlerOn(P.Apply(cfg, s, a))
  {
  }

  lemma FullStep(strict: bool, cfg: P.Config, calls: seq<I.Call>, w0: World, s: State, s': State, mv: Move)
    requires I.CallsOk(calls) && Small(calls) && Seen(cfg) && FullInv(strict, cfg, calls, w0, s)
    requires Composed.Step(strict, cfg, calls, s, s', mv)
    ensures FullInv(strict, cfg, calls, w0, s')
  {
    hide I.CallOk, I.Independent, I.Inv, W.WakeInv, MemStep, Tied, SameLocks, C.Inv, P.Apply, P.Enabled;
    InvStep(strict, cfg, calls, s, s', mv);
    Simulates(strict, cfg, calls, s, s', mv);
    if s'.mem != s.mem {
      var i :| I.Step1(strict, calls, s.mem, s'.mem, i);
      I.InvStep(strict, calls, w0, s.mem, s'.mem, i);
    }
    if mv.Do? {
      SyncStep(cfg, s.sync, mv.a);
      HandlerStays(cfg, s.sync, mv.a);
      forall c | 0 <= c < |s'.sync.chans| ensures W.WakeInv(cfg, s'.sync, c) {
        W.WakeStep(cfg, s.sync, mv.a, c);
      }
    }
  }

  // --------------------------------------------------------------- measure

  /** The handler is between reading channel `c` and clearing it. */
  predicate At(s: P.State, c: nat) { (s.handler.Saw? || s.handler.Marked?) && s.handler.c == c }

  /** Steps the channel's event still needs until the handler has it in hand. */
  function EventLeft(s: P.State, c: nat): nat {
    if c >= |s.chans| then 0
    else if s.chans[c].owed > 0 then 6
    else if s.chans[c].status != {} && !At(s, c) then 4
    else 0
  }

  function HandlerLeft(h: P.Handler): nat {
    match h case Scanning => 0 case Saw(_, _, _) => 3 case Marked(_, _, _) => 2 case Waking(_) => 1
  }

  function EngineLeft(strict: bool, c: I.Call, p: I.Pc): nat
    requires p.Rung?
  {
    if p.e.Stopped? then 0 else if p.ph == I.DataPh then R.Less(HaltAfter(strict, |c.pages|), p.m) else 1
  }

  /** What a call has left once its engine has stopped and its event is handled. */
  function Rest(strict: bool, c: I.Call, ph: I.Phase): nat
    requires |c.image| < 0x1_0000_0000
  {
    if ph == I.DataPh then 1 else HaltAfter(strict, |c.pages|) + 13 + |I.PhaseWrites(c, I.DataPh)|
  }

  /** What it has left before its doorbell. */
  function Ahead(strict: bool, c: I.Call, ph: I.Phase): nat
    requires |c.image| < 0x1_0000_0000
  {
    8 + Rest(strict, c, ph) + if ph == I.DataPh then HaltAfter(strict, |c.pages|) else 1
  }

  function CallLeft(strict: bool, calls: seq<I.Call>, s: State, i: nat): nat
    requires Small(calls) && i < |calls| && i < |s.mem.pcs| && i < |s.sync.callers|
  {
    var c, p, q := calls[i], s.mem.pcs[i], s.sync.callers[i];
    match p
    case Finished(_) => 0
    case Rung(ph, _, _) => Rest(strict, c, ph) + EngineLeft(strict, c, p) + EventLeft(s.sync, ChanNo(ChanAt(calls, s.mem, i)))
    case Regs(ph, k, _) => Ahead(strict, c, ph) + R.Less(|I.PhaseWrites(c, ph)|, k) + if q.Started? then 0 else 1
    case Sent => Ahead(strict, c, I.DataPh) + |I.PhaseWrites(c, I.DataPh)| + if q.Want? then 2 else 3
    case Built => Ahead(strict, c, I.DescPh) + |I.PhaseWrites(c, I.DescPh)| + if q.Want? then 2 else 3
    case New => Ahead(strict, c, I.DescPh) + |I.PhaseWrites(c, I.DescPh)| + 4
  }

  function Sum(strict: bool, calls: seq<I.Call>, s: State, n: nat): nat
    requires Small(calls) && n <= |calls| && |s.mem.pcs| == |calls| == |s.sync.callers|
  {
    if n == 0 then 0 else Sum(strict, calls, s, n - 1) + CallLeft(strict, calls, s, n - 1)
  }

  function Measure(strict: bool, calls: seq<I.Call>, s: State): nat
    requires Small(calls) && |s.mem.pcs| == |calls| == |s.sync.callers|
  {
    Sum(strict, calls, s, |calls|) + HandlerLeft(s.sync.handler)
  }

  /** Nobody's part grows, and call `i`'s falls by at least `d`. */
  lemma {:induction false} SumFalls(strict: bool, calls: seq<I.Call>, s: State, s': State, i: nat, d: nat, n: nat)
    requires Small(calls) && n <= |calls| && |s.mem.pcs| == |calls| == |s.sync.callers|
    requires |s'.mem.pcs| == |calls| == |s'.sync.callers|
    requires forall j | 0 <= j < |calls| :: CallLeft(strict, calls, s', j) <= CallLeft(strict, calls, s, j)
    requires i < |calls| ==> CallLeft(strict, calls, s', i) + d <= CallLeft(strict, calls, s, i)
    ensures Sum(strict, calls, s', n) + (if i < n then d else 0) <= Sum(strict, calls, s, n)
  {
    hide CallLeft;
    if n > 0 {
      SumFalls(strict, calls, s, s', i, d, n - 1);
    }
  }

  /** The two sides of a call's place that do not concern others: another call with
      the same place and an untouched channel has as much left as before. */
  lemma OthersLeft(strict: bool, calls: seq<I.Call>, s: State, s': State, j: nat)
    requires Small(calls) && |s.mem.pcs| == |calls| == |s.sync.callers|
    requires |s'.mem.pcs| == |calls| == |s'.sync.callers| && j < |calls|
    requires s'.mem.pcs[j] == s.mem.pcs[j]
    requires s'.sync.callers[j].Started? == s.sync.callers[j].Started? && s'.sync.callers[j].Want? == s.sync.callers[j].Want?
    requires s.mem.pcs[j].Rung? ==>
      EventLeft(s'.sync, ChanNo(ChanAt(calls, s.mem, j))) <= EventLeft(s.sync, ChanNo(ChanAt(calls, s.mem, j)))
    ensures CallLeft(strict, calls, s', j) <= CallLeft(strict, calls, s, j)
  {
  }

  // -------------------------------------------------------- the next step

  /** With the handler in the middle of a channel, its own next step. */
  lemma HandlerGoes(strict: bool, cfg: P.Config, calls: seq<I.Call>, w0: World, s: State) returns (s': State, a: P.Action)
    requires I.CallsOk(calls) && Small(calls) && Seen(cfg) && FullInv(strict, cfg, calls, w0, s) && !s.sync.handler.Scanning?
    ensures Composed.Step(strict, cfg, calls, s, s', Do(a)) && |s'.mem.pcs| == |calls| == |s'.sync.callers|
    ensures Measure(strict, calls, s') < Measure(strict, calls, s)
  {
    hide I.CallOk, I.Independent, I.Inv, I.PhaseWrites, SameLocks, Tied;
    a := if s.sync.handler.Saw? then P.Mark else if s.sync.handler.Marked? then P.Clear else P.Wake;
    s' := s.(sync := P.Apply(cfg, s.sync, a));
    var c := s.sync.handler.c;
    assert C.ChanInv(s.sync, c) && W.WakeInv(cfg, s.sync, c);
    hide C.Inv, SyncInv;
    forall j | 0 <= j < |calls| ensures CallLeft(strict, calls, s', j) <= CallLeft(strict, calls, s, j) {
      HandlerKeepsEvents(cfg, s.sync, a, ChanNo(ChanAt(calls, s.mem, j)));
      hide P.Apply, EventLeft, CallLeft;
      OthersLeft(strict, calls, s, s', j);
    }
    SumFalls(strict, calls, s, s', |calls|, 0, |calls|);
  }

  lemma HandlerKeepsEvents(cfg: P.Config, s: P.State, a: P.Action, c: nat)
    requires a == P.Mark || a == P.Clear || a == P.Wake
    requires P.Enabled(cfg, s, a) && s.handler.c < |s.chans|
    requires C.ChanInv(s, s.handler.c) && W.WakeInv(cfg, s, s.handler.c)
    ensures EventLeft(P.Apply(cfg, s, a), c) <= EventLeft(s, c)
    ensures HandlerLeft(P.Apply(cfg, s, a).handler) < HandlerLeft(s.handler)
    ensures |P.Apply(cfg, s, a).callers| == |s.callers|
    ensures forall j | 0 <= j < |s.callers| :: P.Apply(cfg, s, a).callers[j].Started? == s.callers[j].Started?
                                            && P.Apply(cfg, s, a).callers[j].Want? == s.callers[j].Want?
  {
    if a == P.Clear && c == s.handler.c {
      C.NothingLeft(s.chans[c].status, s.handler.bits);
    }
  }

  /** A caller's step leaves the others as much as they had. */
  lemma OtherCalls(strict: bool, cfg: P.Config, calls: seq<I.Call>, s: State, s': State, a: P.Action, i: nat, j: nat)
    requires Small(calls) && Inv(cfg, calls, s) && P.LockInv(s.sync) && Composed.Step(strict, cfg, calls, s, s', Do(a))
    requires P.Actor(a) == Some(i) && i < |calls| && j < |calls| && j != i
    ensures |s'.mem.pcs| == |calls| == |s'.sync.callers|
    ensures CallLeft(strict, calls, s', j) <= CallLeft(strict, calls, s, j)
  {
    hide SyncInv, SameLocks, P.LockInv, I.EngStep, I.PhaseWrites, I.Latch, Address, ConfigOf, I.AfterStore, I.NextStore;
    hide EventLeft, CallLeft;
    P.LockStep(cfg, s.sync, a);
    assert Tied(cfg, calls, s, j);
    assert s'.mem.pcs[j] == s.mem.pcs[j];
    ActorAlone(cfg, s.sync, a, j);
    if s.mem.pcs[j].Rung? {
      var c := ChanNo(ChanAt(calls, s.mem, j));
      TiedHolds(cfg, calls, s, j);
      ActorChan(cfg, s.sync, a, c);
      SameEvent(cfg, s.sync, a, c);
    }
    hide P.Enabled, P.Apply;
    OthersLeft(strict, calls, s, s', j);
  }

  lemma SameEvent(cfg: P.Config, s: P.State, a: P.Action, c: nat)
    requires P.Enabled(cfg, s, a) && P.Actor(a).Some? && c < |s.chans| && c < |P.Apply(cfg, s, a).chans|
    requires P.Apply(cfg, s, a).chans[c] == s.chans[c]
    ensures P.Apply(cfg, s, a).handler == s.handler
    ensures |P.Apply(cfg, s, a).chans| == |s.chans| ==> EventLeft(P.Apply(cfg, s, a), c) == EventLeft(s, c)
  {
  }

  /** What a step of call `i` has to show. */
  ghost predicate Gains(strict: bool, cfg: P.Config, calls: seq<I.Call>, s: State, s': State, mv: Move)
    requires Small(calls)
  {
    && Composed.Step(strict, cfg, calls, s, s', mv)
    && |s'.mem.pcs| == |calls| == |s'.sync.callers| && |s.mem.pcs| == |calls| == |s.sync.callers|
    && Measure(strict, calls, s') < Measure(strict, calls, s)
  }

  /** Work of its own: the list, a register store or a step of the engine. */
  lemma WorkGains(strict: bool, cfg: P.Config, calls: seq<I.Call>, w0: World, s: State, i: nat) returns (s': State)
    requires I.CallsOk(calls) && Small(calls) && FullInv(strict, cfg, calls, w0, s) && i < |calls| && Working(calls, s.mem, i)
    ensures Gains(strict, cfg, calls, s, s', Work(i))
  {
    hide I.CallOk, I.Independent, SameLocks, SyncInv, C.Inv, W.WakeInv;
    var m' := R.FreeStep(strict, calls, s.mem, i);
    s' := s.(mem := m');
    assert I.Inv1(strict, calls[i], w0, s.mem, i) && Tied(cfg, calls, s, i);
    WorkLeft(strict, calls, w0, s, s', i);
    forall j | 0 <= j < |calls| ensures CallLeft(strict, calls, s', j) <= CallLeft(strict, calls, s, j) {
      if j != i {
        OthersLeft(strict, calls, s, s', j);
      }
    }
    hide CallLeft;
    SumFalls(strict, calls, s, s', i, 1, |calls|);
  }

  lemma WorkLeft(strict: bool, calls: seq<I.Call>, w0: World, s: State, s': State, i: nat)
    requires I.CallsOk(calls) && Small(calls) && |s.mem.pcs| == |calls| == |s.sync.callers| && i < |calls|
    requires I.Inv(strict, calls, w0, s.mem) && Working(calls, s.mem, i) && s'.sync == s.sync
    requires s.mem.pcs[i].Regs? ==> s.sync.callers[i].Locked?
    requires I.Step1(strict, calls, s.mem, s'.mem, i)
    ensures |s'.mem.pcs| == |calls| && (forall j | 0 <= j < |calls| && j != i :: s'.mem.pcs[j] == s.mem.pcs[j])
    ensures CallLeft(strict, calls, s', i) < CallLeft(strict, calls, s, i)
  {
    hide I.CallOk, I.Independent, I.Untouched, I.Agree, I.Reference, I.PhaseWrites, I.NextStore, I.AfterStore, Address, Steps, EventLeft;
    assert I.Inv1(strict, calls[i], w0, s.mem, i);
    match s.mem.pcs[i]
    case Regs(ph, k, rf) => I.StoreStarts(s.mem.rf, calls[i], s.mem.pcs[i]);
    case Rung(ph, e, m) =>
      if ph == I.DataPh {
        R.WalkingHasSteps(strict, calls[i], w0, m);
      }
    case _ =>
  }

  predicate CallersAct(a: P.Action) { a.Call? || a.Lock? || a.Start? || a.Ring? || a.Return? }

  lemma ActLeft(strict: bool, cfg: P.Config, calls: seq<I.Call>, s: State, s': State, a: P.Action, i: nat)
    requires Small(calls) && Inv(cfg, calls, s) && P.LockInv(s.sync) && Composed.Step(strict, cfg, calls, s, s', Do(a))
    requires CallersAct(a) && P.Actor(a) == Some(i) && i < |calls|
    ensures |s'.mem.pcs| == |calls| == |s'.sync.callers|
    ensures CallLeft(strict, calls, s', i) < CallLeft(strict, calls, s, i)
  {
    hide SyncInv, SameLocks, P.LockInv, I.EngStep, I.PhaseWrites, I.Latch, Address, ConfigOf, I.AfterStore, I.NextStore;
    P.LockStep(cfg, s.sync, a);
    assert Tied(cfg, calls, s, i);
    if a.Ring? {
      I.StoreStarts(s.mem.rf, calls[i], s.mem.pcs[i]);
    }
  }

  lemma ActGains(strict: bool, cfg: P.Config, calls: seq<I.Call>, w0: World, s: State, a: P.Action, m': I.State, i: nat)
    returns (s': State)
    requires I.CallsOk(calls) && Small(calls) && Seen(cfg) && FullInv(strict, cfg, calls, w0, s)
    requires CallersAct(a) && P.Actor(a) == Some(i) && i < |calls|
    requires P.Enabled(cfg, s.sync, a) && MemStep(strict, calls, s.mem, m', a)
    ensures Gains(strict, cfg, calls, s, s', Do(a))
  {
    hide I.CallOk, I.Independent, I.Inv, SameLocks, Tied, MemStep, P.Enabled, P.Apply, W.WakeInv, CallLeft, P.LockInv;
    s' := State(m', P.Apply(cfg, s.sync, a));
    SyncStep(cfg, s.sync, a);
    ActLeft(strict, cfg, calls, s, s', a, i);
    forall j | 0 <= j < |calls| ensures CallLeft(strict, calls, s', j) <= CallLeft(strict, calls, s, j) {
      if j != i {
        OtherCalls(strict, cfg, calls, s, s', a, i, j);
      }
    }
    SumFalls(strict, calls, s, s', i, 1, |calls|);
    SameHandler(cfg, s.sync, a);
  }

  lemma SameHandler(cfg: P.Config, s: P.State, a: P.Action)
    requires P.Enabled(cfg, s, a) && P.Actor(a).Some?
    ensures P.Apply(cfg, s, a).handler == s.handler
  {
  }

  /** Only the call that waits on a channel is affected by its event. */
  lemma OneWaits(cfg: P.Config, calls: seq<I.Call>, s: State, i: nat, j: nat)
    requires Small(calls) && Inv(cfg, calls, s) && P.LockInv(s.sync) && i < |calls| && j < |calls| && i != j
    requires s.mem.pcs[i].Rung? && s.mem.pcs[j].Rung?
    ensures ChanNo(ChanAt(calls, s.mem, i)) != ChanNo(ChanAt(calls, s.mem, j))
  {
    hide SyncInv, SameLocks, P.LockInv;
    assert Tied(cfg, calls, s, i) && Tied(cfg, calls, s, j);
    TiedHolds(cfg, calls, s, i);
    TiedHolds(cfg, calls, s, j);
  }

  lemma EventFalls(cfg: P.Config, s: P.State, a: P.Action, c: nat)
    requires cfg.events == 1 && P.Enabled(cfg, s, a) && s.handler.Scanning? && c < |s.chans| && C.ChanInv(s, c)
    requires a == P.Raise(c, {P.Stop}) || (a == P.See(c, true) && s.chans[c].owed == 0)
    ensures EventLeft(P.Apply(cfg, s, a), c) + (if a.Raise? then 1 else 4) <= EventLeft(s, c)
  {
  }

  /** The stopped engine of call `i` raises its event, or the handler, idle, reads it. */
  lemma EventGains(strict: bool, cfg: P.Config, calls: seq<I.Call>, w0: World, s: State, i: nat)
    returns (s': State, a: P.Action)
    requires I.CallsOk(calls) && Small(calls) && Seen(cfg) && FullInv(strict, cfg, calls, w0, s) && s.sync.handler.Scanning?
    requires i < |calls| && s.mem.pcs[i].Rung? && s.mem.pcs[i].e.Stopped?
    requires var c := ChanNo(ChanAt(calls, s.mem, i));
      c < |s.sync.chans| && (s.sync.chans[c].owed > 0 || s.sync.chans[c].status != {})
    ensures Gains(strict, cfg, calls, s, s', Do(a))
  {
    hide I.CallOk, I.Independent, I.Inv, I.PhaseWrites, SameLocks, Tied, W.WakeInv;
    var c := ChanNo(ChanAt(calls, s.mem, i));
    a := if s.sync.chans[c].owed > 0 then P.Raise(c, {P.Stop}) else P.See(c, true);
    s' := s.(sync := P.Apply(cfg, s.sync, a));
    assert C.ChanInv(s.sync, c);
    EventFalls(cfg, s.sync, a, c);
    forall j | 0 <= j < |calls| && j != i && s.mem.pcs[j].Rung? ensures ChanNo(ChanAt(calls, s.mem, j)) != c {
      OneWaits(cfg, calls, s, i, j);
    }
    hide SyncInv;
    forall j | 0 <= j < |calls| ensures CallLeft(strict, calls, s', j) <= CallLeft(strict, calls, s, j) {
      OthersLeft(strict, calls, s, s', j);
    }
    SumFalls(strict, calls, s, s', i, if s.sync.chans[c].owed > 0 then 1 else 4, |calls|);
  }

  /** A call between lock and unlock, with the handler idle, has a step that gains:
      its own, its engine's, or the handler's look at its channel. It is never
      found asleep with nothing to come. */
  lemma HolderGains(strict: bool, cfg: P.Config, calls: seq<I.Call>, w0: World, s: State, i: nat)
    returns (s': State, mv: Move)
    requires I.CallsOk(calls) && Small(calls) && Seen(cfg) && FullInv(strict, cfg, calls, w0, s) && s.sync.handler.Scanning?
    requires i < |calls| && (s.mem.pcs[i].Regs? || s.mem.pcs[i].Rung?)
    ensures Gains(strict, cfg, calls, s, s', mv)
  {
    hide I.CallOk, I.Independent, I.PhaseWrites, SameLocks, W.WakeInv, Gains, EventLeft, C.Inv;
    assert Tied(cfg, calls, s, i) && I.Inv1(strict, calls[i], w0, s.mem, i);
    var c := ChanNo(ChanAt(calls, s.mem, i));
    LocksIn(cfg, s.sync);
    TiedHolds(cfg, calls, s, i);
    hide I.Inv, Inv, SyncInv;
    if Working(calls, s.mem, i) {
      s' := WorkGains(strict, cfg, calls, w0, s, i);
      mv := Work(i);
    } else if s.mem.pcs[i].Regs? {
      var a := if s.sync.callers[i].Locked? then P.Start(i) else P.Ring(i);
      var m' := s.mem;
      if a.Ring? {
        m' := R.FreeStep(strict, calls, s.mem, i);
      }
      s' := ActGains(strict, cfg, calls, w0, s, a, m', i);
      mv := Do(a);
    } else if s.sync.chans[c].st != RUNNING {
      AwakeWhenDone(strict, cfg, calls, w0, s, i);
      s' := ActGains(strict, cfg, calls, w0, s, P.Return(i), Released(calls, s.mem, i), i);
      mv := Do(P.Return(i));
    } else {
      AwakeWhenDone(strict, cfg, calls, w0, s, i);
      var a;
      s', a := EventGains(strict, cfg, calls, w0, s, i);
      mv := Do(a);
    }
  }

  lemma LocksIn(cfg: P.Config, s: P.State)
    requires SyncInv(cfg, s)
    ensures P.LockInv(s)
  {
    hide P.LockInv;
  }

  /** With the handler idle, a call in its wait is awake if its channel is marked,
      and otherwise has its event to come. */
  lemma AwakeWhenDone(strict: bool, cfg: P.Config, calls: seq<I.Call>, w0: World, s: State, i: nat)
    requires I.CallsOk(calls) && Small(calls) && Seen(cfg) && FullInv(strict, cfg, calls, w0, s) && s.sync.handler.Scanning?
    requires i < |calls| && s.mem.pcs[i].Rung?
    ensures var c := ChanNo(ChanAt(calls, s.mem, i));
      && c < |s.sync.chans|
      && (s.sync.chans[c].st != RUNNING ==> s.sync.callers[i] == P.Waiting(c))
      && (s.sync.chans[c].st == RUNNING ==> s.sync.chans[c].owed > 0 || s.sync.chans[c].status != {})
  {
    hide I.CallOk, I.Independent, I.Inv, I.PhaseWrites, SameLocks;
    var c := ChanNo(ChanAt(calls, s.mem, i));
    assert Tied(cfg, calls, s, i);
    TiedHolds(cfg, calls, s, i);
    assert W.WakeInv(cfg, s.sync, c) && C.ChanInv(s.sync, c);
    hide C.Inv, Inv, P.LockInv;
  }

  /** Whatever is unfinished, some step gains. */
  lemma SomeGain(strict: bool, cfg: P.Config, calls: seq<I.Call>, w0: World, s: State, i: nat) returns (s': State, mv: Move)
    requires I.CallsOk(calls) && Small(calls) && Seen(cfg) && FullInv(strict, cfg, calls, w0, s)
    requires i < |calls| && !s.mem.pcs[i].Finished?
    ensures Gains(strict, cfg, calls, s, s', mv)
  {
    hide I.CallOk, I.Independent, I.Inv, I.PhaseWrites, SameLocks, W.WakeInv, EventLeft, C.Inv;
    assert Tied(cfg, calls, s, i);
    LocksIn(cfg, s.sync);
    hide SyncInv;
    var p, q := s.mem.pcs[i], s.sync.callers[i];
    if !s.sync.handler.Scanning? {
      var a;
      s', a := HandlerGoes(strict, cfg, calls, w0, s);
      mv := Do(a);
    } else if p.Regs? || p.Rung? {
      s', mv := HolderGains(strict, cfg, calls, w0, s, i);
    } else if p.New? {
      s' := WorkGains(strict, cfg, calls, w0, s, i);
      mv := Work(i);
    } else if q.Idle? {
      var a := P.Call(i, ChanNo(ChanAt(calls, s.mem, i)));
      s' := ActGains(strict, cfg, calls, w0, s, a, s.mem, i);
      mv := Do(a);
    } else if s.sync.chans[q.c].lock == None {
      s' := ActGains(strict, cfg, calls, w0, s, P.Lock(i), Acquired(calls, s.mem, i), i);
      mv := Do(P.Lock(i));
    } else {
      var j := s.sync.chans[q.c].lock.value;
      assert Tied(cfg, calls, s, j);
      s', mv := HolderGains(strict, cfg, calls, w0, s, j);
    }
  }

  lemma {:induction false} RunFull(strict: bool, cfg: P.Config, calls: seq<I.Call>, run: seq<State>, k: nat)
    requires I.CallsOk(calls) && Small(calls) && IsRun(strict, cfg, calls, run) && k < |run| && Seen(cfg)
    ensures FullInv(strict, cfg, calls, run[0].mem.w, run[k])
  {
    hide I.CallOk, I.Independent, FullInv, Composed.Step;
    if k > 0 {
      RunFull(strict, cfg, calls, run, k - 1);
      assert Next(strict, cfg, calls, run[k - 1], run[k]);
      var mv :| Composed.Step(strict, cfg, calls, run[k - 1], run[k], mv);
      FullStep(strict, cfg, calls, run[0].mem.w, run[k - 1], run[k], mv);
    } else {
      RunInv(strict, cfg, calls, run, 0);
      InitialFull(strict, cfg, calls, run[0].mem.w, run[0]);
    }
  }

  lemma InitialFull(strict: bool, cfg: P.Config, calls: seq<I.Call>, w0: World, s: State)
    requires I.CallsOk(calls) && Small(calls) && Inv(cfg, calls, s) && I.Inv(strict, calls, w0, s.mem)
    requires s.sync == P.Init(32, |calls|)
    ensures FullInv(strict, cfg, calls, w0, s)
  {
    hide I.CallOk, I.Independent, I.Inv, Inv;
  }

  ghost predicate AllReturned(s: State) { forall i | 0 <= i < |s.mem.pcs| :: s.mem.pcs[i].Finished? }

  lemma FullShape(strict: bool, cfg: P.Config, calls: seq<I.Call>, w0: World, s: State)
    requires I.CallsOk(calls) && Small(calls) && FullInv(strict, cfg, calls, w0, s)
    ensures |s.mem.pcs| == |calls| == |s.sync.callers|
  {
  }

  ghost function Potential(strict: bool, calls: seq<I.Call>, s: State): nat
    requires Small(calls)
  {
    if |s.mem.pcs| == |calls| == |s.sync.callers| then Measure(strict, calls, s) else 0
  }

  /** From wherever it stands, every run goes on to one in which all calls have
      returned, each on its handler's mark, and all have moved their bytes. */
  lemma {:induction false} AllReturn(strict: bool, cfg: P.Config, calls: seq<I.Call>, run: seq<State>) returns (run': seq<State>)
    requires I.CallsOk(calls) && IsRun(strict, cfg, calls, run) && Seen(cfg)
    ensures IsRun(strict, cfg, calls, run') && |run| <= |run'| && run'[..|run|] == run
    ensures AllReturned(run'[|run'| - 1])
    ensures forall i | 0 <= i < |calls| :: I.Moved(calls[i], run[0].mem.w, run'[|run'| - 1].mem.w)
    decreases Potential(strict, calls, run[|run| - 1])
  {
    hide I.CallOk, I.Independent, FullInv, Composed.Step, Measure, I.Moved, I.Untouched;
    AllSmall(calls);
    var s := run[|run| - 1];
    RunFull(strict, cfg, calls, run, |run| - 1);
    FullShape(strict, cfg, calls, run[0].mem.w, s);
    if i :| 0 <= i < |calls| && !s.mem.pcs[i].Finished? {
      var s', mv := SomeGain(strict, cfg, calls, run[0].mem.w, s, i);
      var longer := run + [s'];
      forall k | 0 < k < |longer| ensures Next(strict, cfg, calls, longer[k - 1], longer[k]) {
        if k < |run| {
          assert Next(strict, cfg, calls, run[k - 1], run[k]);
        }
      }
      run' := AllReturn(strict, cfg, calls, longer);
      assert run'[..|run|] == run'[..|longer|][..|run|];
    } else {
      run' := run;
      ReturnedCallsMoved(strict, cfg, calls, run, |run| - 1);
    }
  }
}
