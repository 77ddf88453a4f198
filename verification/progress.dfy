/** Transfers come to an end: every step of any interleaving uses up some of the
    work there is, and while a call is unfinished some call can step. */
module Progress {
  import opened Common
  import opened Words
  import opened Memory
  import opened Engine
  import opened Registers
  import opened Channel
  import opened Pipeline
  import opened Interleave

  function Less(a: nat, b: nat): nat { if b <= a then a - b else 0 }

  /** Steps of its own a call has left. */
  function Left(strict: bool, c: Call, p: Pc): nat
    requires |c.image| < 0x1_0000_0000
  {
    var walk := HaltAfter(strict, |c.pages|);
    var sent := walk + 3 + |PhaseWrites(c, DataPh)|;
    match p
    case Finished(_) => 0
    case Rung(ph, e, m) =>
      (if ph == DataPh then 1 else sent + 1) + (if e.Stopped? then 0 else if ph == DataPh then Less(walk, m) else 1)
    case Regs(ph, k, _) =>
      (if ph == DataPh then walk + 2 else sent + 3) + Less(|PhaseWrites(c, ph)|, k)
    case Sent => sent
    case Built => sent + 4 + |PhaseWrites(c, DescPh)|
    case New => sent + 5 + |PhaseWrites(c, DescPh)|
  }

  /** The engine has a step in hand as long as it is walking. */
  lemma WalkingHasSteps(strict: bool, c: Call, w0: World, m: nat)
    requires CallOk(c)
    ensures Alone(strict, c, w0, m).k.Halted? <==> HaltAfter(strict, |c.pages|) <= m
  {
    hide Scatter.Table, IsImage, JobsOf, Phys, Loaded, Pinned, DistinctPages, BufferApart;
    if c.dir == RdCh {
      InboundTransfer(w0, strict, c.base, c.addr, c.len, c.pages, c.image, c.bus, c.ptr, m);
    } else {
      OutboundTransfer(w0, strict, c.base, c.addr, c.len, c.pages, c.image, c.bus, c.ptr, m);
    }
  }

  /** A step uses up work of the call that takes it. */
  lemma StepUses(strict: bool, calls: seq<Call>, w0: World, s: State, s': State, i: nat)
    requires CallsOk(calls) && Inv(strict, calls, w0, s) && i < |calls| && Step1(strict, calls, s, s', i)
    ensures |s'.pcs| == |calls| && |calls[i].image| < 0x1_0000_0000
    ensures Left(strict, calls[i], s'.pcs[i]) < Left(strict, calls[i], s.pcs[i])
    ensures forall j | 0 <= j < |calls| && j != i :: s'.pcs[j] == s.pcs[j]
  {
    hide CallOk, Independent, Untouched, Agree, Steps, Engine.Step, ConfigOf, Address, Program, PhaseWrites, Reference;
    var c := calls[i];
    CallSmall(c);
    assert Inv1(strict, c, w0, s, i);
    match s.pcs[i]
    case Regs(ph, k, rf) => StoreStarts(s.rf, c, s.pcs[i]);
    case Rung(ph, e, m) =>
      if ph == DataPh {
        WalkingHasSteps(strict, c, w0, m);
      }
    case _ =>
  }

  /** All the work the first `n` calls have left. */
  function Total(strict: bool, calls: seq<Call>, pcs: seq<Pc>, n: nat): nat
    requires n <= |calls| == |pcs| && forall j | 0 <= j < |calls| :: |calls[j].image| < 0x1_0000_0000
  {
    if n == 0 then 0 else Total(strict, calls, pcs, n - 1) + Left(strict, calls[n - 1], pcs[n - 1])
  }

  lemma {:induction false} TotalFalls(strict: bool, calls: seq<Call>, pcs: seq<Pc>, pcs': seq<Pc>, i: nat, n: nat)
    requires n <= |calls| == |pcs| == |pcs'| && i < |calls| && forall j | 0 <= j < |calls| :: |calls[j].image| < 0x1_0000_0000
    requires forall j | 0 <= j < |calls| && j != i :: pcs'[j] == pcs[j]
    requires Left(strict, calls[i], pcs'[i]) < Left(strict, calls[i], pcs[i])
    ensures if i < n then Total(strict, calls, pcs', n) < Total(strict, calls, pcs, n)
            else Total(strict, calls, pcs', n) == Total(strict, calls, pcs, n)
  {
    hide Left;
    if n > 0 {
      TotalFalls(strict, calls, pcs, pcs', i, n - 1);
    }
  }

  /** Every held lock has its call between taking and giving it back. */
  ghost predicate LocksHeld(calls: seq<Call>, s: State) {
    |s.pcs| == |calls| && forall ch | ch in s.locks ::
      s.locks[ch] < |calls| && (s.pcs[s.locks[ch]].Regs? || s.pcs[s.locks[ch]].Rung?)
      && ChanOf(calls[s.locks[ch]], s.pcs[s.locks[ch]].ph) == ch
  }

  lemma LocksStep(strict: bool, calls: seq<Call>, w0: World, s: State, s': State, i: nat)
    requires CallsOk(calls) && Inv(strict, calls, w0, s) && i < |calls| && Step1(strict, calls, s, s', i) && LocksHeld(calls, s)
    ensures LocksHeld(calls, s')
  {
    hide CallOk, Independent, Untouched, Agree, Steps, Engine.Step, ConfigOf, Address, Program, PhaseWrites, Reference, PcOk;
    CallSmall(calls[i]);
    assert Inv1(strict, calls[i], w0, s, i);
    if s.pcs[i].Regs? {
      StoreStarts(s.rf, calls[i], s.pcs[i]);
    }
  }

  lemma {:induction false} RunLocks(strict: bool, calls: seq<Call>, run: seq<State>, k: nat)
    requires CallsOk(calls) && IsRun(strict, calls, run) && k < |run|
    ensures LocksHeld(calls, run[k])
  {
    hide CallOk, Independent, Inv, Step1, LocksHeld;
    AllSmall(calls);
    if k == 0 {
      NoLocks(calls, run[0]);
    } else {
      RunLocks(strict, calls, run, k - 1);
      RunInv(strict, calls, run, k - 1);
      assert Next(strict, calls, run[k - 1], run[k]);
      var i :| Step1(strict, calls, run[k - 1], run[k], i);
      StepInRange(strict, calls, run[k - 1], run[k], i);
      LocksStep(strict, calls, run[0].w, run[k - 1], run[k], i);
    }
  }

  lemma NoLocks(calls: seq<Call>, s: State)
    requires |s.pcs| == |calls| && s.locks == map[]
    ensures LocksHeld(calls, s)
  {
  }

  /** Every run is finite: it has no more steps than the calls had work at its start. */
  lemma {:induction false} RunsEnd(strict: bool, calls: seq<Call>, run: seq<State>, k: nat)
    requires CallsOk(calls) && IsRun(strict, calls, run) && k < |run|
    ensures |run[0].pcs| == |run[k].pcs| == |calls|
    ensures k + Total(strict, calls, run[k].pcs, |calls|) <= Total(strict, calls, run[0].pcs, |calls|)
  {
    hide CallOk, Independent, Inv, Step1, Total, Left;
    AllSmall(calls);
    RunInv(strict, calls, run, k);
    PcsMatch(strict, calls, run[0].w, run[k]);
    if k > 0 {
      RunsEnd(strict, calls, run, k - 1);
      RunInv(strict, calls, run, k - 1);
      assert Next(strict, calls, run[k - 1], run[k]);
      var i :| Step1(strict, calls, run[k - 1], run[k], i);
      StepInRange(strict, calls, run[k - 1], run[k], i);
      StepUses(strict, calls, run[0].w, run[k - 1], run[k], i);
      TotalFalls(strict, calls, run[k - 1].pcs, run[k].pcs, i, |calls|);
    }
  }

  lemma PcsMatch(strict: bool, calls: seq<Call>, w0: World, s: State)
    requires CallsOk(calls) && Inv(strict, calls, w0, s)
    ensures |s.pcs| == |calls|
  {
  }

  /** An unlocked call's next step. */
  lemma FreeStep(strict: bool, calls: seq<Call>, s: State, i: nat) returns (s': State)
    requires CallsOk(calls) && |s.pcs| == |calls| && i < |calls| && !s.pcs[i].Finished?
    requires s.pcs[i].Built? ==> ChanOf(calls[i], DescPh) !in s.locks
    requires s.pcs[i].Sent? ==> ChanOf(calls[i], DataPh) !in s.locks
    ensures Step1(strict, calls, s, s', i)
  {
    hide CallOk, Independent, EngStep, AfterStore, NextStore;
    var c := calls[i];
    CallSmall(c);
    match s.pcs[i]
    case New => s' := s.(w := s.w.(host := Store(s.w.host, c.bus, c.image)), pcs := s.pcs[i := Built]);
    case Built => s' := s.(locks := s.locks[ChanOf(c, DescPh) := i], pcs := s.pcs[i := Regs(DescPh, 0, s.rf)]);
    case Sent => s' := s.(locks := s.locks[ChanOf(c, DataPh) := i], pcs := s.pcs[i := Regs(DataPh, 0, s.rf)]);
    case Regs(ph, k, rf) =>
      var (at, v) := NextStore(c, ph, k);
      s' := s.(rf := Set(s.rf, at, v), pcs := s.pcs[i := AfterStore(s.rf, at, v, ChanOf(c, ph), s.pcs[i])]);
    case Rung(ph, e, m) =>
      if e.Stopped? {
        s' := s.(locks := s.locks - {ChanOf(c, ph)}, pcs := s.pcs[i := if ph == DescPh then Sent else Finished(m)]);
      } else {
        var (w, e') := EngStep(ChanOf(c, ph).0, strict, s.w, e);
        s' := s.(w := w, pcs := s.pcs[i := Rung(ph, e', m + 1)]);
      }
  }

  /** While a call is unfinished, it or the holder of the lock it waits for can step. */
  lemma SomeStep(strict: bool, calls: seq<Call>, s: State, i: nat) returns (s': State, j: nat)
    requires CallsOk(calls) && LocksHeld(calls, s) && i < |calls| && !s.pcs[i].Finished?
    ensures j < |calls| && Step1(strict, calls, s, s', j)
  {
    hide CallOk, Independent, Step1;
    j := i;
    if s.pcs[i].Built? && ChanOf(calls[i], DescPh) in s.locks {
      j := s.locks[ChanOf(calls[i], DescPh)];
    } else if s.pcs[i].Sent? && ChanOf(calls[i], DataPh) in s.locks {
      j := s.locks[ChanOf(calls[i], DataPh)];
    }
    s' := FreeStep(strict, calls, s, j);
  }

  ghost predicate AllFinished(s: State) { forall i | 0 <= i < |s.pcs| :: s.pcs[i].Finished? }

  /** From wherever it stands, every run goes on to one in which all calls have
      finished; with NonInterference, all of them have moved their bytes. */
  lemma {:induction false} AllFinish(strict: bool, calls: seq<Call>, run: seq<State>) returns (run': seq<State>)
    requires CallsOk(calls) && IsRun(strict, calls, run)
    ensures IsRun(strict, calls, run') && |run| <= |run'| && run'[..|run|] == run
    ensures AllFinished(run'[|run'| - 1])
    ensures forall i | 0 <= i < |calls| :: Moved(calls[i], run[0].w, run'[|run'| - 1].w)
    decreases var s := run[|run| - 1]; if |s.pcs| == |calls| then Total(strict, calls, s.pcs, |calls|) else 0
  {
    hide CallOk, Independent, Inv, Step1, Total, Left, LocksHeld, Moved, Untouched;
    AllSmall(calls);
    var s := run[|run| - 1];
    RunsEnd(strict, calls, run, |run| - 1);
    if i :| 0 <= i < |calls| && !s.pcs[i].Finished? {
      RunLocks(strict, calls, run, |run| - 1);
      var s', j := SomeStep(strict, calls, s, i);
      var longer := run + [s'];
      forall k | 0 < k < |longer| ensures Next(strict, calls, longer[k - 1], longer[k]) {
        if k < |run| {
          assert Next(strict, calls, run[k - 1], run[k]);
        }
      }
      RunInv(strict, calls, run, |run| - 1);
      StepUses(strict, calls, run[0].w, s, s', j);
      TotalFalls(strict, calls, s.pcs, s'.pcs, j, |calls|);
      run' := AllFinish(strict, calls, longer);
      assert run'[..|run|] == run'[..|longer|][..|run|];
    } else {
      run' := run;
      NonInterference(strict, calls, run, |run| - 1);
    }
  }
}
