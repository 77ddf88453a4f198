/** Register accesses by concurrent callers: every store of the window update is
    a step of its own, under conbar_lock. Their order of access is a legal
    history of one flat register file. */
module Linear {
  import opened Common
  import opened Words
  import opened Memory
  import opened Registers
  import opened Window

  function MapOf(a: RegArgs): nat { a.addr - a.addr % 0x100_0000 }

  /** The eight stores that move the window for `a`. */
  function Moves(a: RegArgs): (ws: seq<(nat, u32)>)
    ensures |ws| == 8
  {
    MapWrites(Inbound, 1, 2, MapOf(a), 0x100_0000) + MapWrites(Outbound, 1, 2, MapOf(a), 0x100_0000)
  }

  /** Moving: `k` of the stores are done, on top of the registers `rf`. */
  datatype Pc =
    | Idle | Want(a: RegArgs)
    | Compare(a: RegArgs) | Moving(a: RegArgs, k: nat, rf: RegFile) | Access(a: RegArgs) | Done(a: RegArgs, out: RegArgs)

  datatype State = State(rf: RegFile, dev: Mem, base: u64, lock: Option<nat>, callers: seq<Pc>,
                         log: seq<(RegArgs, RegArgs)>)

  /** What an access through BAR 2 does and returns (the switch of eon_rw_reg). */
  function BarOp(rf: RegFile, dev: Mem, a: RegArgs): (Mem, RegArgs) {
    var off := a.addr % 0x100_0000;
    var width := WidthOf(a.flag);
    if a.flag == 1 || a.flag == 3 then (BarWrite(rf, dev, off, width, a.data), a)
    else if a.flag == 2 || a.flag == 4 then (dev, a.(data := BarRead(rf, dev, off, width) % 0x1_0000_0000))
    else (dev, a)
  }

  ghost predicate Step(s: State, s': State, i: nat) {
    i < |s.callers| &&
    match s.callers[i]
    case Idle => exists a: RegArgs :: InRange(a.addr) && s' == s.(callers := s.callers[i := Want(a)])
    case Want(a) => s.lock == None && s' == s.(lock := Some(i), callers := s.callers[i := Compare(a)])
    case Compare(a) =>
      s' == s.(callers := s.callers[i := if MapOf(a) == s.base then Access(a) else Moving(a, 0, s.rf)])
    case Moving(a, k, rf) =>
      if k < 8 then
        s' == s.(rf := Set(s.rf, Moves(a)[k].0, Moves(a)[k].1), callers := s.callers[i := Moving(a, k + 1, rf)])
      else
        s' == s.(base := MapOf(a), callers := s.callers[i := Access(a)])
    case Access(a) =>
      var (dev, out) := BarOp(s.rf, s.dev, a);
      s' == s.(dev := dev, callers := s.callers[i := Done(a, out)], log := s.log + [(a, out)])
    case Done(a, out) => s' == s.(lock := None, callers := s.callers[i := Idle])
  }

  ghost predicate Start(s: State) {
    && WindowOk(s.rf, s.base) && s.lock == None && s.log == []
    && forall i | 0 <= i < |s.callers| :: s.callers[i] == Idle
  }

  ghost predicate Next(s: State, s': State) { exists i :: Step(s, s', i) }

  ghost predicate IsRun(run: seq<State>) {
    && |run| > 0 && Start(run[0])
    && forall k | 0 < k < |run| :: Next(run[k - 1], run[k])
  }

  predicate Inside(p: Pc) { !p.Idle? && !p.Want? }

  /** What holds of the window while its lock's owner is at `p`. */
  ghost predicate OwnerOk(s: State, p: Pc) {
    match p
    case Compare(a) => InRange(a.addr) && WindowOk(s.rf, s.base)
    case Moving(a, k, rf) =>
      InRange(a.addr) && WindowOk(rf, s.base) && k <= 8 && s.rf == SetAll(rf, Moves(a)[..k])
    case Access(a) => InRange(a.addr) && WindowOk(s.rf, s.base) && s.base == MapOf(a)
    case Done(a, out) => WindowOk(s.rf, s.base) && |s.log| > 0 && s.log[|s.log| - 1] == (a, out)
    case _ => false
  }

  /** The register file after the logged operations, one after another. */
  function Replay(dev: Mem, log: seq<(RegArgs, RegArgs)>): Mem {
    if log == [] then dev else WindowOp(Replay(dev, log[..|log| - 1]), log[|log| - 1].0).0
  }

  /** Every logged operation returned what it returns in that order. */
  ghost predicate Legal(dev: Mem, log: seq<(RegArgs, RegArgs)>) {
    forall k | 0 <= k < |log| :: log[k].1 == WindowOp(Replay(dev, log[..k]), log[k].0).1
  }

  ghost predicate Inv(dev0: Mem, s: State) {
    && (forall i | 0 <= i < |s.callers| :: s.callers[i].Want? ==> InRange(s.callers[i].a.addr))
    && (forall i | 0 <= i < |s.callers| :: Inside(s.callers[i]) ==> s.lock == Some(i))
    && (match s.lock
        case None => WindowOk(s.rf, s.base)
        case Some(i) => i < |s.callers| && OwnerOk(s, s.callers[i]))
    && s.dev == Replay(dev0, s.log) && Legal(dev0, s.log)
  }

  /** The eighth store completes the window in both directions, and region 0 has
      kept its target. */
  lemma MovedOk(rf: RegFile, base: u64, a: RegArgs)
    requires WindowOk(rf, base) && InRange(a.addr)
    ensures WindowOk(SetAll(rf, Moves(a)), MapOf(a))
  {
    hide MapWrites, RegionOf, SetAll;
    var wi, wo := MapWrites(Inbound, 1, 2, MapOf(a), 0x100_0000), MapWrites(Outbound, 1, 2, MapOf(a), 0x100_0000);
    SetAllAppend(rf, wi, wo);
    MapSetsOneRegion(rf, Inbound, 1, 2, MapOf(a), 0x100_0000);
    MapSetsOneRegion(SetAll(rf, wi), Outbound, 1, 2, MapOf(a), 0x100_0000);
    var rf2 := SetAll(rf, Moves(a));
    forall d ensures RegionOf(rf2, d, 0) == RegionOf(rf, d, 0) && RegionOf(rf2, d, 1) == Region1(MapOf(a)) {
      if d == Inbound {
        assert RegionOf(rf2, Inbound, 1) == RegionOf(SetAll(rf, wi), Inbound, 1);
      }
    }
  }

  lemma {:induction false} SetAllAppend(rf: RegFile, a: seq<(nat, u32)>, b: seq<(nat, u32)>)
    ensures SetAll(SetAll(rf, a), b) == SetAll(rf, a + b)
  {
    if b == [] {
      assert a + b == a;
    } else {
      SetAllAppend(rf, a, b[..|b| - 1]);
      assert (a + b)[..|a + b| - 1] == a + b[..|b| - 1];
    }
  }

  lemma AccessIsWindowOp(s: State, a: RegArgs)
    requires OwnerOk(s, Access(a))
    ensures BarOp(s.rf, s.dev, a) == WindowOp(s.dev, a)
  {
    hide BarWrite, BarRead, WindowOk, WindowOp;
    WindowRefines(s.rf, s.base, s.dev, a);
    IdleFlag(s.dev, a);
  }

  lemma IdleFlag(dev: Mem, a: RegArgs)
    ensures !(1 <= a.flag <= 4) ==> WindowOp(dev, a) == (dev, a)
  {
  }

  lemma LogMore(dev: Mem, log: seq<(RegArgs, RegArgs)>, a: RegArgs)
    requires Legal(dev, log)
    ensures var (dev', out) := WindowOp(Replay(dev, log), a);
      Replay(dev, log + [(a, out)]) == dev' && Legal(dev, log + [(a, out)])
  {
    hide WindowOp;
    var out := WindowOp(Replay(dev, log), a).1;
    var log' := log + [(a, out)];
    assert log'[..|log|] == log;
    forall k | 0 <= k < |log'| ensures log'[k].1 == WindowOp(Replay(dev, log'[..k]), log'[k].0).1 {
      if k < |log| {
        assert log'[..k] == log[..k];
      }
    }
  }

  lemma OwnerSteps(s: State, s': State, i: nat)
    requires Step(s, s', i) && Inside(s.callers[i]) && OwnerOk(s, s.callers[i])
    ensures i < |s'.callers| && if s.callers[i].Done? then WindowOk(s'.rf, s'.base) else OwnerOk(s', s'.callers[i])
  {
    hide WindowOk, BarOp, SetAll, Moves, WindowOp;
    match s.callers[i]
    case Compare(a) =>
      assert Moves(a)[..0] == [];
      NoStores(s.rf);
    case Moving(a, k, rf) =>
      if k < 8 {
        assert Moves(a)[..k + 1][..k] == Moves(a)[..k];
        OneMore(rf, Moves(a), k);
      } else {
        assert Moves(a)[..8] == Moves(a);
        MovedOk(rf, s.base, a);
      }
    case _ =>
  }

  lemma NoStores(rf: RegFile)
    ensures SetAll(rf, []) == rf
  {
  }

  lemma OneMore(rf: RegFile, ws: seq<(nat, u32)>, k: nat)
    requires k < |ws|
    ensures SetAll(rf, ws[..k + 1]) == Set(SetAll(rf, ws[..k]), ws[k].0, ws[k].1)
  {
    assert ws[..k + 1][..k] == ws[..k];
  }

  lemma InvStep(dev0: Mem, s: State, s': State, i: nat)
    requires Inv(dev0, s) && Step(s, s', i)
    ensures Inv(dev0, s')
  {
    hide WindowOk, BarOp, SetAll, Moves, WindowOp, Legal, Replay;
    if Inside(s.callers[i]) {
      OwnerSteps(s, s', i);
      if s.callers[i].Access? {
        AccessIsWindowOp(s, s.callers[i].a);
        LogMore(dev0, s.log, s.callers[i].a);
      }
    }
  }

  lemma {:induction false} RunInv(run: seq<State>, k: nat)
    requires IsRun(run) && k < |run|
    ensures Inv(run[0].dev, run[k])
  {
    if k > 0 {
      RunInv(run, k - 1);
      assert Next(run[k - 1], run[k]);
      var i :| Step(run[k - 1], run[k], i);
      InvStep(run[0].dev, run[k - 1], run[k], i);
    }
  }

  function FlatReplay(dev: Mem, log: seq<(RegArgs, RegArgs)>): Mem {
    if log == [] then dev else FlatOp(FlatReplay(dev, log[..|log| - 1]), log[|log| - 1].0).0
  }

  lemma {:induction false} AlignedReplay(dev: Mem, log: seq<(RegArgs, RegArgs)>, n: nat)
    requires n <= |log| && forall k | 0 <= k < |log| :: Fits(log[k].0.addr, WidthOf(log[k].0.flag))
    ensures Replay(dev, log[..n]) == FlatReplay(dev, log[..n])
  {
    if n > 0 {
      AlignedReplay(dev, log, n - 1);
      assert log[..n][..n - 1] == log[..n - 1];
    }
  }

  /** In every state of every interleaved run, device memory is what the logged
      accesses, in log order, make of the initial flat register file, and each
      returned what the flat file held then. A call's entry is in the log before
      it returns; a caller past its access is the log's last entry. */
  lemma Linearizable(run: seq<State>, k: nat)
    requires IsRun(run) && k < |run|
    requires forall j | 0 <= j < |run[k].log| ::
      Fits(run[k].log[j].0.addr, WidthOf(run[k].log[j].0.flag))
    ensures var dev, s := run[0].dev, run[k];
      && s.dev == FlatReplay(dev, s.log)
      && (forall j | 0 <= j < |s.log| :: s.log[j].1 == FlatOp(FlatReplay(dev, s.log[..j]), s.log[j].0).1)
      && (forall i | 0 <= i < |s.callers| :: s.callers[i].Done? ==>
            s.log != [] && s.log[|s.log| - 1] == (s.callers[i].a, s.callers[i].out))
      && (s.lock == None ==> WindowOk(s.rf, s.base))
  {
    hide FlatOp, WindowOk;
    RunInv(run, k);
    var dev, s := run[0].dev, run[k];
    AlignedReplay(dev, s.log, |s.log|);
    assert s.log[..|s.log|] == s.log;
    forall j | 0 <= j < |s.log| ensures s.log[j].1 == FlatOp(FlatReplay(dev, s.log[..j]), s.log[j].0).1 {
      AlignedReplay(dev, s.log, j);
    }
  }
}
