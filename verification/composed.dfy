/** Transfers and completion protocol together: the memories of Interleave move,
    and calls start, sleep and return as Protocol says. A wait ends when the
    handler has marked the channel, whatever the engine is doing by then. */
module Composed {
  import opened Common
  import opened Words
  import opened Memory
  import opened Engine
  import opened Registers
  import opened Channel
  import I = Interleave
  import P = Protocol
  import C = Completion

  datatype State = State(mem: I.State, sync: P.State)

  /** Work: a call builds its list or stores a register, or its engine takes a
      step. Do: a step of the protocol. */
  datatype Move = Work(i: nat) | Do(a: P.Action)

  function ChanNo(ch: (Direction, nat)): nat { 2 * ch.1 + if ch.0 == WrCh then 1 else 0 }

  /** The phase a call is in, or goes on to when it has the lock. */
  function PhaseOf(p: I.Pc): I.Phase {
    match p
    case New => I.DescPh
    case Built => I.DescPh
    case Regs(ph, _, _) => ph
    case Rung(ph, _, _) => ph
    case Sent => I.DataPh
    case Finished(_) => I.DataPh
  }

  function ChanAt(calls: seq<I.Call>, m: I.State, i: nat): (Direction, nat)
    requires i < |calls| && i < |m.pcs|
  {
    I.ChanOf(calls[i], PhaseOf(m.pcs[i]))
  }

  predicate Between(p: I.Pc) { p.Built? || p.Sent? }

  function Acquired(calls: seq<I.Call>, m: I.State, i: nat): I.State
    requires i < |calls| && i < |m.pcs|
  {
    m.(locks := m.locks[ChanAt(calls, m, i) := i], pcs := m.pcs[i := I.Regs(PhaseOf(m.pcs[i]), 0, m.rf)])
  }

  /** The call returns from its wait, without a look at the engine. */
  function Released(calls: seq<I.Call>, m: I.State, i: nat): I.State
    requires i < |calls| && i < |m.pcs| && m.pcs[i].Rung?
  {
    m.(locks := m.locks - {ChanAt(calls, m, i)}, pcs := m.pcs[i := if m.pcs[i].ph == I.DescPh then I.Sent else I.Finished(m.pcs[i].m)])
  }

  predicate Small(calls: seq<I.Call>) { forall j | 0 <= j < |calls| :: |calls[j].image| < 0x1_0000_0000 && calls[j].chan < 16 }

  predicate AllStored(calls: seq<I.Call>, m: I.State, i: nat)
    requires Small(calls) && i < |calls| && i < |m.pcs|
  {
    m.pcs[i].Regs? && m.pcs[i].k == |I.PhaseWrites(calls[i], m.pcs[i].ph)|
  }

  predicate Working(calls: seq<I.Call>, m: I.State, i: nat)
    requires Small(calls) && i < |calls| && i < |m.pcs|
  {
    match m.pcs[i]
    case New => true
    case Regs(ph, k, _) => k < |I.PhaseWrites(calls[i], ph)|
    case Rung(_, e, _) => !e.Stopped?
    case _ => false
  }

  /** A transfer's event is raised when its engine has stopped. */
  predicate EngineDone(calls: seq<I.Call>, m: I.State, c: nat) {
    forall i | 0 <= i < |calls| && i < |m.pcs| && m.pcs[i].Rung? :: ChanNo(ChanAt(calls, m, i)) == c ==> m.pcs[i].e.Stopped?
  }

  /** Calls carry no batch and do not abandon their waits. */
  ghost predicate MemStep(strict: bool, calls: seq<I.Call>, m: I.State, m': I.State, a: P.Action)
    requires Small(calls) && |m.pcs| == |calls|
  {
    match a
    case Call(i, c) => i < |calls| && Between(m.pcs[i]) && c == ChanNo(ChanAt(calls, m, i)) && m' == m
    case Lock(i) => i < |calls| && Between(m.pcs[i]) && m' == Acquired(calls, m, i)
    case Start(i) => i < |calls| && AllStored(calls, m, i) && m' == m
    case Ring(i) => i < |calls| && AllStored(calls, m, i) && I.Step1(strict, calls, m, m', i)
    case Return(i) => i < |calls| && m.pcs[i].Rung? && m' == Released(calls, m, i)
    case Sleep(_) => m' == m
    case Raise(c, _) => EngineDone(calls, m, c) && m' == m
    case RaiseLate(_, _) => m' == m
    case See(_, _) => m' == m
    case Mark => m' == m
    case Clear => m' == m
    case Wake => m' == m
    case _ => false
  }

  ghost predicate Step(strict: bool, cfg: P.Config, calls: seq<I.Call>, s: State, s': State, mv: Move)
    requires Small(calls)
  {
    |s.mem.pcs| == |calls| &&
    match mv
    case Work(i) =>
      i < |calls| && Working(calls, s.mem, i) && I.Step1(strict, calls, s.mem, s'.mem, i) && s'.sync == s.sync
    case Do(a) =>
      P.Enabled(cfg, s.sync, a) && s'.sync == P.Apply(cfg, s.sync, a) && MemStep(strict, calls, s.mem, s'.mem, a)
  }

  // ------------------------------------------------------------- invariant

  /** The call's place in the protocol, and what its wait is waiting for. */
  ghost predicate Tied(cfg: P.Config, calls: seq<I.Call>, s: State, i: nat)
    requires Small(calls) && i < |calls| && i < |s.mem.pcs| && i < |s.sync.callers| && |s.sync.chans| == 32
  {
    var c := ChanNo(ChanAt(calls, s.mem, i));
    var p := s.sync.callers[i];
    match s.mem.pcs[i]
    case Regs(_, _, _) => p == P.Locked(c) || (p == P.Started(c) && AllStored(calls, s.mem, i) && s.sync.chans[c].st == RUNNING)
    case Rung(_, e, _) =>
      P.InWait(p, c) && (cfg.events == 0 || !e.Stopped? ==> s.sync.chans[c].owed == cfg.events && s.sync.chans[c].st == RUNNING)
    case New => p == P.Idle
    case Finished(_) => p == P.Idle
    case _ => p == P.Idle || p == P.Want(c)
  }

  /** Both sides agree on which channels are locked. */
  ghost predicate SameLocks(s: State)
    requires |s.sync.chans| == 32
  {
    forall d, n: nat | n < 16 :: (d, n) in s.mem.locks <==> s.sync.chans[ChanNo((d, n))].lock.Some?
  }

  ghost predicate SyncInv(cfg: P.Config, s: P.State) {
    if cfg.events == 0 then P.LockInv(s) && C.Quiet(s) else C.Inv(s)
  }

  ghost predicate Inv(cfg: P.Config, calls: seq<I.Call>, s: State)
    requires Small(calls)
  {
    && |s.mem.pcs| == |calls| == |s.sync.callers| && |s.sync.chans| == 32
    && SyncInv(cfg, s.sync) && SameLocks(s)
    && forall i | 0 <= i < |calls| :: Tied(cfg, calls, s, i)
  }

  lemma SyncStep(cfg: P.Config, s: P.State, a: P.Action)
    requires C.Safe(cfg) && !cfg.abandon && SyncInv(cfg, s) && P.Enabled(cfg, s, a)
    ensures SyncInv(cfg, P.Apply(cfg, s, a)) && P.LockInv(s) && P.LockInv(P.Apply(cfg, s, a))
    ensures |P.Apply(cfg, s, a).chans| == |s.chans| && |P.Apply(cfg, s, a).callers| == |s.callers|
  {
    hide P.Enabled, P.Apply, P.LockInv, C.ChanInv, C.CallerInv, C.Quiet;
    P.LockStep(cfg, s, a);
    if cfg.events == 0 {
      C.QuietStep(cfg, s, a);
    } else {
      C.InvStep(cfg, s, a);
    }
  }

  /** No handler marks a channel whose transfer has not raised its event. */
  lemma NoMarkYet(cfg: P.Config, s: P.State, c: nat)
    requires C.Safe(cfg) && SyncInv(cfg, s) && c < |s.chans| && s.handler.Saw? && s.handler.c == c
    ensures cfg.events == 1 && s.chans[c].owed == 0 && s.chans[c].lock.Some?
    ensures s.chans[c].lock.value < |s.callers| && P.InWait(s.callers[s.chans[c].lock.value], c)
  {
    assert C.ChanInv(s, c);
  }

  lemma TiedHolds(cfg: P.Config, calls: seq<I.Call>, s: State, i: nat)
    requires Small(calls) && |s.mem.pcs| == |calls| == |s.sync.callers| && |s.sync.chans| == 32 && i < |calls|
    requires P.LockInv(s.sync) && Tied(cfg, calls, s, i) && (s.mem.pcs[i].Regs? || s.mem.pcs[i].Rung?)
    ensures var c := ChanNo(ChanAt(calls, s.mem, i));
      P.Holds(s.sync.callers[i], c) && c < 32 && s.sync.chans[c].lock == Some(i)
  {
    C.HolderIs(s.sync, i, ChanNo(ChanAt(calls, s.mem, i)));
  }

  /** A call keeps its place while its channel's state and event count last. */
  lemma TiedKept(cfg: P.Config, calls: seq<I.Call>, s: State, s': State, j: nat)
    requires Small(calls) && |s.mem.pcs| == |s'.mem.pcs| == |calls| == |s.sync.callers| == |s'.sync.callers|
    requires |s.sync.chans| == |s'.sync.chans| == 32 && j < |calls| && Tied(cfg, calls, s, j)
    requires s'.mem.pcs[j] == s.mem.pcs[j]
    requires s'.sync.callers[j] == s.sync.callers[j]
          || exists c :: P.InWait(s.sync.callers[j], c) && P.InWait(s'.sync.callers[j], c)
    requires s.mem.pcs[j].Regs? || s.mem.pcs[j].Rung? ==>
      var c := ChanNo(ChanAt(calls, s.mem, j));
      s'.sync.chans[c].st == s.sync.chans[c].st && s'.sync.chans[c].owed == s.sync.chans[c].owed
    ensures Tied(cfg, calls, s', j)
  {
  }

  lemma WorkStep(strict: bool, cfg: P.Config, calls: seq<I.Call>, s: State, s': State, i: nat)
    requires Small(calls) && Inv(cfg, calls, s) && Step(strict, cfg, calls, s, s', Work(i))
    ensures Inv(cfg, calls, s')
  {
    hide SyncInv, I.EngStep, I.PhaseWrites, I.Latch, Address, ConfigOf, I.AfterStore, I.NextStore;
    if s.mem.pcs[i].Regs? {
      I.StoreStarts(s.mem.rf, calls[i], s.mem.pcs[i]);
    }
    forall j | 0 <= j < |calls| ensures Tied(cfg, calls, s', j) {
      assert Tied(cfg, calls, s, j);
      if j != i {
        TiedKept(cfg, calls, s, s', j);
      }
    }
  }

  /** The channel a caller's own step changes is one it takes or holds. */
  lemma ActorChan(cfg: P.Config, s: P.State, a: P.Action, c: nat)
    requires P.LockInv(s) && P.Enabled(cfg, s, a) && P.Actor(a).Some? && c < |s.chans|
    requires s.chans[c].lock.Some? && s.chans[c].lock != P.Actor(a)
    ensures c < |P.Apply(cfg, s, a).chans| && P.Apply(cfg, s, a).chans[c] == s.chans[c]
  {
    var i := P.Actor(a).value;
    if s.callers[i].Locked? || s.callers[i].Started? || s.callers[i].Waiting? || s.callers[i].Asleep? {
      C.HolderIs(s, i, s.callers[i].c);
    }
    hide P.LockInv;
  }

  lemma ActorAlone(cfg: P.Config, s: P.State, a: P.Action, j: nat)
    requires P.Enabled(cfg, s, a) && P.Actor(a).Some? && P.Actor(a) != Some(j) && j < |s.callers|
    ensures j < |P.Apply(cfg, s, a).callers| && P.Apply(cfg, s, a).callers[j] == s.callers[j]
  {
  }

  /** A caller's step leaves the other calls where they are. */
  lemma OthersTied(strict: bool, cfg: P.Config, calls: seq<I.Call>, s: State, s': State, a: P.Action, j: nat)
    requires Small(calls) && Inv(cfg, calls, s) && P.LockInv(s.sync) && Step(strict, cfg, calls, s, s', Do(a))
    requires P.Actor(a).Some? && P.Actor(a) != Some(j) && j < |calls|
    ensures |s'.mem.pcs| == |calls| == |s'.sync.callers| && |s'.sync.chans| == 32 && Tied(cfg, calls, s', j)
  {
    hide SyncInv, SameLocks, P.LockInv, I.EngStep, I.PhaseWrites, I.Latch, Address, ConfigOf;
    P.LockStep(cfg, s.sync, a);
    assert Tied(cfg, calls, s, j);
    assert s'.mem.pcs[j] == s.mem.pcs[j];
    ActorAlone(cfg, s.sync, a, j);
    if s.mem.pcs[j].Regs? || s.mem.pcs[j].Rung? {
      TiedHolds(cfg, calls, s, j);
      ActorChan(cfg, s.sync, a, ChanNo(ChanAt(calls, s.mem, j)));
    }
    hide P.Enabled, P.Apply;
    TiedKept(cfg, calls, s, s', j);
  }

  /** A caller's step takes it to its next place. */
  lemma OwnTied(strict: bool, cfg: P.Config, calls: seq<I.Call>, s: State, s': State, a: P.Action, i: nat)
    requires Small(calls) && Inv(cfg, calls, s) && P.LockInv(s.sync) && Step(strict, cfg, calls, s, s', Do(a))
    requires P.Actor(a) == Some(i) && i < |calls|
    ensures |s'.mem.pcs| == |calls| == |s'.sync.callers| && |s'.sync.chans| == 32 && Tied(cfg, calls, s', i)
  {
    hide SyncInv, SameLocks, P.LockInv, I.EngStep, I.PhaseWrites, I.Latch, Address, ConfigOf;
    P.LockStep(cfg, s.sync, a);
    assert Tied(cfg, calls, s, i);
    if a.Ring? {
      I.StoreStarts(s.mem.rf, calls[i], s.mem.pcs[i]);
    }
  }

  /** Engine and handler leave every call in its place: an event comes only from an
      engine that has stopped, and a mark only after an event. */
  lemma RestTied(strict: bool, cfg: P.Config, calls: seq<I.Call>, s: State, s': State, a: P.Action, j: nat)
    requires Small(calls) && Inv(cfg, calls, s) && P.LockInv(s.sync) && Step(strict, cfg, calls, s, s', Do(a))
    requires C.Safe(cfg) && !cfg.abandon && P.Actor(a).None? && j < |calls|
    ensures |s'.mem.pcs| == |calls| == |s'.sync.callers| && |s'.sync.chans| == 32 && Tied(cfg, calls, s', j)
  {
    hide SameLocks, P.LockInv, I.PhaseWrites, C.Inv;
    P.LockStep(cfg, s.sync, a);
    assert Tied(cfg, calls, s, j);
    if s.mem.pcs[j].Regs? || s.mem.pcs[j].Rung? {
      TiedHolds(cfg, calls, s, j);
      if a.Mark? {
        NoMarkYet(cfg, s.sync, s.sync.handler.c);
      }
    }
  }

  /** Which protocol steps move a channel's lock. */
  lemma LocksMove(cfg: P.Config, s: P.State, a: P.Action, c: nat)
    requires P.Enabled(cfg, s, a) && !a.GiveUp? && !a.Leave? && c < |s.chans|
    ensures c < |P.Apply(cfg, s, a).chans|
    ensures P.Apply(cfg, s, a).chans[c].lock ==
      if a.Lock? && s.callers[a.i].c == c then Some(a.i)
      else if a.Return? && s.callers[a.i].c == c then None
      else s.chans[c].lock
  {
  }

  lemma SameLocksStep(strict: bool, cfg: P.Config, calls: seq<I.Call>, s: State, s': State, a: P.Action)
    requires Small(calls) && Inv(cfg, calls, s) && Step(strict, cfg, calls, s, s', Do(a))
    requires |s'.sync.chans| == 32
    ensures SameLocks(s')
  {
    hide SyncInv, I.EngStep, I.PhaseWrites, I.Latch, Address, ConfigOf, P.Apply;
    if P.Actor(a).Some? && P.Actor(a).value < |calls| {
      assert Tied(cfg, calls, s, P.Actor(a).value);
    }
    forall d, n: nat | n < 16 ensures (d, n) in s'.mem.locks <==> s'.sync.chans[ChanNo((d, n))].lock.Some? {
      LocksMove(cfg, s.sync, a, ChanNo((d, n)));
    }
  }

  lemma InvStep(strict: bool, cfg: P.Config, calls: seq<I.Call>, s: State, s': State, mv: Move)
    requires Small(calls) && Inv(cfg, calls, s) && Step(strict, cfg, calls, s, s', mv) && C.Safe(cfg) && !cfg.abandon
    ensures Inv(cfg, calls, s')
  {
    match mv
    case Work(i) => WorkStep(strict, cfg, calls, s, s', i);
    case Do(a) =>
      hide SameLocks, SyncInv, Tied, MemStep, P.Enabled, P.Apply, P.LockInv;
      SyncStep(cfg, s.sync, a);
      SameLocksStep(strict, cfg, calls, s, s', a);
      forall j | 0 <= j < |calls|
        ensures |s'.mem.pcs| == |calls| == |s'.sync.callers| && Tied(cfg, calls, s', j)
      {
        if P.Actor(a).None? {
          RestTied(strict, cfg, calls, s, s', a, j);
        } else if P.Actor(a) == Some(j) {
          OwnTied(strict, cfg, calls, s, s', a, j);
        } else {
          OthersTied(strict, cfg, calls, s, s', a, j);
        }
      }
      MemShape(strict, calls, s.mem, s'.mem, a);
  }

  lemma MemShape(strict: bool, calls: seq<I.Call>, m: I.State, m': I.State, a: P.Action)
    requires Small(calls) && |m.pcs| == |calls| && MemStep(strict, calls, m, m', a)
    ensures |m'.pcs| == |calls|
  {
    hide I.EngStep, I.PhaseWrites, I.Latch, Address, ConfigOf;
  }

  /** Every step is one of Interleave's, where a wait ends with the engine's stop,
      or leaves the memories' side alone: a caller that finds its channel marked
      finds its engine stopped. */
  lemma Simulates(strict: bool, cfg: P.Config, calls: seq<I.Call>, s: State, s': State, mv: Move)
    requires Small(calls) && Inv(cfg, calls, s) && Step(strict, cfg, calls, s, s', mv)
    ensures s'.mem == s.mem || exists i :: I.Step1(strict, calls, s.mem, s'.mem, i)
  {
    hide SyncInv, I.EngStep, I.PhaseWrites, I.Latch, Address, ConfigOf, P.Apply;
    if mv.Do? && (mv.a.Lock? || mv.a.Return?) {
      assert Tied(cfg, calls, s, mv.a.i);
      assert I.Step1(strict, calls, s.mem, s'.mem, mv.a.i);
    }
  }

  // ------------------------------------------------------------------ runs

  /** A run from any registers and memories, all calls and channels idle. */
  ghost predicate IsRun(strict: bool, cfg: P.Config, calls: seq<I.Call>, run: seq<State>)
    requires Small(calls)
  {
    && |run| > 0 && |run[0].mem.pcs| == |calls| && run[0].mem.locks == map[]
    && (forall i | 0 <= i < |calls| :: run[0].mem.pcs[i] == I.New)
    && run[0].sync == P.Init(32, |calls|)
    && forall k | 0 < k < |run| :: Next(strict, cfg, calls, run[k - 1], run[k])
  }

  ghost predicate Next(strict: bool, cfg: P.Config, calls: seq<I.Call>, s: State, s': State)
    requires Small(calls)
  {
    exists mv :: Step(strict, cfg, calls, s, s', mv)
  }

  lemma AllSmall(calls: seq<I.Call>)
    requires I.CallsOk(calls)
    ensures Small(calls)
  {
    hide I.CallOk;
    forall j | 0 <= j < |calls| ensures |calls[j].image| < 0x1_0000_0000 && calls[j].chan < 16 {
      I.CallSmall(calls[j]);
    }
  }

  lemma InitialInv(cfg: P.Config, calls: seq<I.Call>, s: State)
    requires Small(calls) && |s.mem.pcs| == |calls| && s.mem.locks == map[] && s.sync == P.Init(32, |calls|)
    requires forall i | 0 <= i < |calls| :: s.mem.pcs[i] == I.New
    ensures Inv(cfg, calls, s)
  {
    P.InitLocks(32, |calls|);
  }

  lemma {:induction false} RunInv(strict: bool, cfg: P.Config, calls: seq<I.Call>, run: seq<State>, k: nat)
    requires I.CallsOk(calls) && IsRun(strict, cfg, calls, run) && k < |run| && C.Safe(cfg) && !cfg.abandon
    ensures Inv(cfg, calls, run[k]) && I.Inv(strict, calls, run[0].mem.w, run[k].mem)
  {
    hide I.CallOk, I.Independent, I.Inv, Inv, Step;
    AllSmall(calls);
    if k > 0 {
      RunInv(strict, cfg, calls, run, k - 1);
      assert Next(strict, cfg, calls, run[k - 1], run[k]);
      var mv :| Step(strict, cfg, calls, run[k - 1], run[k], mv);
      InvStep(strict, cfg, calls, run[k - 1], run[k], mv);
      Simulates(strict, cfg, calls, run[k - 1], run[k], mv);
      if run[k].mem != run[k - 1].mem {
        var i :| I.Step1(strict, calls, run[k - 1].mem, run[k].mem, i);
        I.InvStep(strict, calls, run[0].mem.w, run[k - 1].mem, run[k].mem, i);
      }
    } else {
      InitialInv(cfg, calls, run[0]);
      I.InitialInv(strict, calls, run[0].mem);
    }
  }

  /** Waits that end on the handler's mark are good enough. In every state of every
      interleaving of calls, engines and handler, with at most one event a
      transfer and no wait abandoned, each call that has returned has moved
      exactly its bytes, and no byte outside all calls' areas has changed. */
  lemma ReturnedCallsMoved(strict: bool, cfg: P.Config, calls: seq<I.Call>, run: seq<State>, k: nat)
    requires I.CallsOk(calls) && IsRun(strict, cfg, calls, run) && k < |run| && C.Safe(cfg) && !cfg.abandon
    ensures |run[k].mem.pcs| == |calls|
    ensures forall i | 0 <= i < |calls| && run[k].mem.pcs[i].Finished? :: I.Moved(calls[i], run[0].mem.w, run[k].mem.w)
    ensures I.Untouched(calls, run[0].mem.w, run[k].mem.w)
  {
    hide I.CallOk, I.Independent, I.Moved, Next, I.Untouched;
    AllSmall(calls);
    RunInv(strict, cfg, calls, run, k);
    forall i | 0 <= i < |calls| && run[k].mem.pcs[i].Finished? ensures I.Moved(calls[i], run[0].mem.w, run[k].mem.w) {
      assert I.Inv1(strict, calls[i], run[0].mem.w, run[k].mem, i);
      I.FinishedMoved(strict, calls[i], run[0].mem.w, run[k].mem.w, run[k].mem.pcs[i].m);
    }
  }
}
