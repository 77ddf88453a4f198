/** The two transfers of test_dev.c over one channel context (hdma.c): set up the
    table, build the list, send it to the device, run it, unwind. */
module Transfer {
  import opened Common
  import opened Words
  import opened Memory
  import opened Engine
  import opened Registers
  import opened Channel
  import opened Scatter
  import opened Pipeline
  import opened Window
  import opened Device
  import opened Setup
  import ListBuilder

  /** How a wait ends, and how many engine steps happen before it does. */
  datatype Ending = Woken | TimedOut | Interrupted

  datatype Wait = Wait(ends: Ending, steps: nat)

  /** Return value of a wait: an interrupted one returns 0, as success does. */
  function WaitRet(e: Ending): int { if e == TimedOut then -1 else 0 }

  /** A batch of 32-bit register writes the caller wants before the doorbell. */
  datatype RegInfos = RegInfos(operation: byte, num: byte, data: seq<(u64, u32)>)

  /** The batch is looked at only when enabled and shorter than sixteen: a batch
      of exactly sixteen is skipped, like a longer one. */
  predicate Considered(b: RegInfos) { b.operation == 1 && b.num < 16 }

  /** How many leading entries have a legal address. */
  function LegalPrefix(data: seq<(u64, u32)>, num: nat): (k: nat)
    requires num <= |data|
    ensures k <= num && forall i | 0 <= i < k :: InRange(data[i].0)
    ensures k < num ==> !InRange(data[k].0)
  {
    if num == 0 then 0
    else
      var k := LegalPrefix(data, num - 1);
      if k == num - 1 && InRange(data[k].0) then num else k
  }

  /** Device memory after the first `k` writes. */
  function Batch(dev: Mem, data: seq<(u64, u32)>, k: nat): Mem
    requires k <= |data|
  {
    if k == 0 then dev else WindowOp(Batch(dev, data, k - 1), RegArgs(data[k - 1].0, data[k - 1].1, 1)).0
  }

  /** A write of the batch that lands reaches its four bytes. */
  predicate Reaches(at: u64, a: nat) { Fits(at, 4) && at <= a < at + 4 }

  /** Where a write of the batch reaches, what was there before does not matter;
      elsewhere it stays. */
  lemma {:induction false} BatchDecides(dev: Mem, dev': Mem, data: seq<(u64, u32)>, k: nat, a: nat)
    requires k <= |data|
    ensures (exists i :: 0 <= i < k && Reaches(data[i].0, a)) ==> Batch(dev, data, k)(a) == Batch(dev', data, k)(a)
    ensures (forall i | 0 <= i < k :: !Reaches(data[i].0, a)) ==> Batch(dev, data, k)(a) == dev(a)
    ensures dev(a) == dev'(a) ==> Batch(dev, data, k)(a) == Batch(dev', data, k)(a)
  {
    if k > 0 {
      BatchDecides(dev, dev', data, k - 1, a);
      OneWrite(Batch(dev, data, k - 1), data[k - 1].0, data[k - 1].1, a);
      OneWrite(Batch(dev', data, k - 1), data[k - 1].0, data[k - 1].1, a);
      if exists i :: 0 <= i < k && Reaches(data[i].0, a) {
        var i :| 0 <= i < k && Reaches(data[i].0, a);
        assert i == k - 1 || (0 <= i < k - 1 && Reaches(data[i].0, a));
      }
    }
  }

  /** One 32-bit write changes its four bytes, low byte first, and no other. */
  lemma OneWrite(dev: Mem, at: u64, v: u32, a: nat)
    ensures WindowOp(dev, RegArgs(at, v, 1)).0(a) ==
      if Reaches(at, a) then
        (if a == at then v % 0x100 else if a == at + 1 then v / 0x100 % 0x100
         else if a == at + 2 then v / 0x1_0000 % 0x100 else v / 0x100_0000)
      else dev(a)
  {
    assert Pow256(4) == 0x1_0000_0000;
    FourBytes(v, 0);
    assert v / 0x100_0000 % 0x100 == v / 0x100_0000;
  }

  /** The byte a batch leaves is that of the last write that reaches it. */
  lemma {:induction false} LastWriteWins(dev: Mem, data: seq<(u64, u32)>, k: nat, i: nat, a: nat)
    requires i < k <= |data| && Reaches(data[i].0, a) && forall j | i < j < k :: !Reaches(data[j].0, a)
    ensures Batch(dev, data, k)(a) == WindowOp(dev, RegArgs(data[i].0, data[i].1, 1)).0(a)
  {
    OneWrite(Batch(dev, data, k - 1), data[k - 1].0, data[k - 1].1, a);
    if i == k - 1 {
      OneWrite(dev, data[i].0, data[i].1, a);
    } else {
      LastWriteWins(dev, data, k - 1, i, a);
    }
  }

  /** The same writes on the flat register file. */
  function FlatBatch(dev: Mem, data: seq<(u64, u32)>, k: nat): Mem
    requires k <= |data|
  {
    if k == 0 then dev else FlatWrite(FlatBatch(dev, data, k - 1), data[k - 1].0, 4, data[k - 1].1)
  }

  /** Through the moving window, writes that stay inside their window are the
      flat writes, in order. */
  lemma {:induction false} BatchIsFlat(dev: Mem, data: seq<(u64, u32)>, k: nat)
    requires k <= |data| && forall i | 0 <= i < k :: Fits(data[i].0, 4)
    ensures Batch(dev, data, k) == FlatBatch(dev, data, k)
  {
    if k > 0 {
      BatchIsFlat(dev, data, k - 1);
    }
  }

  /** The window's base after the first `k` writes. */
  function BaseAfter(base: u64, data: seq<(u64, u32)>, k: nat): u64
    requires k <= |data|
  {
    if k == 0 then base else data[k - 1].0 - data[k - 1].0 % 0x100_0000
  }

  ghost predicate WellFormed(b: RegInfos) { |b.data| == 16 }

  /** The same values in every register of every channel. */
  ghost predicate SameRegs(rf: RegFile, rf': RegFile) {
    forall d, m: nat, r | m < 16 :: Reg(rf, d, m, r) == Reg(rf', d, m, r)
  }

  class HdmaContext {
    const dpu: EonDevice
    const dir: Direction
    const id: nat
    var state: TransferState

    constructor (dpu: EonDevice, dir: Direction, id: nat)
      ensures this.dpu == dpu && this.dir == dir && this.id == id && state == IDLE
    {
      this.dpu, this.dir, this.id := dpu, dir, id;
      state := IDLE;
    }

    /** A store to one of the channel's registers that starts nothing. */
    method Store(r: ChanReg, v: u32, ghost rf: RegFile, ghost ws: Writes)
      requires r != Doorbell && dpu.bar0 == Program(rf, dir, id, ws)
      modifies dpu`bar0, dpu`units
      ensures dpu.bar0 == Program(rf, dir, id, ws + [(r, v)]) && dpu.units == old(dpu.units)
    {
      OnlyDoorbells(dir, id, r);
      dpu.Writel(Address(dir, id, r), v);
      assert (ws + [(r, v)])[..|ws|] == ws;
    }

    method SetAttr(control1: u32, pf: u32, cycleOff: u32)
      modifies dpu`bar0, dpu`units
      ensures dpu.bar0 == Program(old(dpu.bar0), dir, id, AttrWrites(control1, pf, cycleOff)) && dpu.units == old(dpu.units)
    {
      ghost var rf := dpu.bar0;
      Store(ElemPf, pf, rf, []);
      Store(CycleOff, cycleOff, rf, [(ElemPf, pf)]);
      Store(Control1, control1, rf, [(ElemPf, pf), (CycleOff, cycleOff)]);
      assert [(ElemPf, pf), (CycleOff, cycleOff)] + [(Control1, control1)] == AttrWrites(control1, pf, cycleOff);
    }

    method EnableIntr(mask: u32)
      modifies dpu`bar0, dpu`units
      ensures dpu.bar0 == Program(old(dpu.bar0), dir, id, IntrWrites(mask)) && dpu.units == old(dpu.units)
    {
      Store(IntSetup, if mask == 0 then 0x7f else mask, dpu.bar0, []);
    }

    method SetXferData(size: u32, src: u64, dst: u64)
      modifies dpu`bar0, dpu`units
      ensures dpu.bar0 == Program(old(dpu.bar0), dir, id, XferWrites(size, src, dst)) && dpu.units == old(dpu.units)
    {
      ghost var rf, ws := dpu.bar0, XferWrites(size, src, dst);
      Store(XferSize, size, rf, ws[..0]);
      assert ws[..0] + [ws[0]] == ws[..1] && ws[..1] + [ws[1]] == ws[..2] && ws[..2] + [ws[2]] == ws[..3];
      assert ws[..3] + [ws[3]] == ws[..4] && ws[..4] + [ws[4]] == ws;
      Store(SarLow, Lo32(src), rf, ws[..1]);
      Store(SarHigh, Hi32(src), rf, ws[..2]);
      Store(DarLow, Lo32(dst), rf, ws[..3]);
      Store(DarHigh, Hi32(dst), rf, ws[..4]);
    }

    method SetDescPointer(ptr: u64)
      modifies dpu`bar0, dpu`units
      ensures dpu.bar0 == Program(old(dpu.bar0), dir, id, PointerWrites(ptr)) && dpu.units == old(dpu.units)
    {
      ghost var rf := dpu.bar0;
      Store(LlpLow, Lo32(ptr), rf, []);
      Store(LlpHigh, Hi32(ptr), rf, [(LlpLow, Lo32(ptr))]);
      assert [(LlpLow, Lo32(ptr))] + [(LlpHigh, Hi32(ptr))] == PointerWrites(ptr);
    }

    /** hdma_start_transfer: the store that lets the engine latch the registers. */
    method StartTransfer()
      requires id < 16
      modifies dpu`bar0, dpu`units
      ensures dpu.bar0 == Program(old(dpu.bar0), dir, id, BELL)
      ensures dpu.units == old(dpu.units)[(dir, id) :=
        Unit(UnitOf(old(dpu.units), (dir, id)).rings + 1, Some(ConfigOf(old(dpu.bar0), dir, id)))]
    {
      hide ConfigOf;
      OnlyDoorbells(dir, id, Doorbell);
      assert BELL[..0] == [];
      dpu.Writel(Address(dir, id, Doorbell), 1);
    }

    /** The engine works off what it latched until the wait ends. */
    method AwaitEngine(wait: Wait) returns (ret: int)
      modifies this`state, dpu`host, dpu`dev, dpu`units
      ensures ret == WaitRet(wait.ends) && state == if wait.ends == Woken then COMPLETED else old(state)
      ensures var u := UnitOf(old(dpu.units), (dir, id));
        && World(dpu.host, dpu.dev) == Worked(dir, dpu.strict, u.job, old(World(dpu.host, dpu.dev)), wait.steps)
        && dpu.units == old(dpu.units)[(dir, id) := Unit(u.rings, None)]
    {
      var u := UnitOf(dpu.units, (dir, id));
      var w := Worked(dir, dpu.strict, u.job, World(dpu.host, dpu.dev), wait.steps);
      dpu.host, dpu.dev := w.host, w.dev;
      dpu.units := dpu.units[(dir, id) := Unit(u.rings, None)];
      if wait.ends == Woken {
        state := COMPLETED;
      }
      return WaitRet(wait.ends);
    }

    /** tranfer_desc: one start, one plain copy of the list, whatever the registers
        held. */
    method TranferDesc(size: u64, src: u64, dst: u64, wait: Wait) returns (ret: int)
      requires id < 16 && dpu.Ready()
      modifies this, dpu`bar0, dpu`units, dpu`host, dpu`dev
      ensures dpu.Ready()
      ensures ret == (if wait.ends == TimedOut then -1 else 0) && Rung(old(dpu.units), dpu.units, (dir, id), 1)
      ensures state == if wait.ends == Woken then COMPLETED else RUNNING
      ensures SetForCopy(dpu.bar0, BlockAt(dir, id), size % 0x1_0000_0000, src, dst) && dpu.bar0(BlockAt(dir, id) + 0x4) == 1
      ensures dpu.bar0 == Program(old(dpu.bar0), dir, id, DescPhase(size % 0x1_0000_0000, src, dst) + BELL)
      ensures World(dpu.host, dpu.dev)
           == Exec(dir, dpu.strict, Plain(Job(src, dst, size % 0x1_0000_0000)), old(World(dpu.host, dpu.dev)), wait.steps).0
    {
      hide Program, ConfigOf, RegionOf, SetForCopy, Exec, NoneStarted, Rung, UnitOf;
      ghost var rf := dpu.bar0;
      StartedAndRun(dpu.units, (dir, id), Some(Plain(Job(src, dst, size % 0x1_0000_0000))));
      var size32 := size % 0x1_0000_0000;
      SetAttr(0xd0000, 0, 0);
      EnableIntr(0x3d);
      ProgramAppend(rf, dir, id, AttrWrites(0xd0000, 0, 0), IntrWrites(0x3d));
      SetXferData(size32, src, dst);
      ProgramAppend(rf, dir, id, AttrWrites(0xd0000, 0, 0) + IntrWrites(0x3d), XferWrites(size32, src, dst));
      DescPhaseConfigures(rf, dir, id, size32, src, dst);
      state := RUNNING;
      StartTransfer();
      ProgramAppend(rf, dir, id, DescPhase(size32, src, dst), BELL);
      ProgramFrame(rf, dir, id, DescPhase(size32, src, dst) + BELL);
      DescPhaseReadback(rf, dir, id, size32, src, dst, BELL);
      ret := AwaitEngine(wait);
    }

    /** The register writes before the doorbell: a batch of fewer than sixteen, if
        enabled, is applied up to its first illegal address. It moves the window
        and no channel register. */
    method ApplyBatch(b: RegInfos) returns (rv: int)
      requires dpu.Ready() && WellFormed(b)
      modifies dpu`bar0, dpu`units, dpu`configBarBase, dpu`dev
      ensures dpu.Ready() && dpu.units == old(dpu.units)
      ensures SameRegs(dpu.bar0, old(dpu.bar0)) && OtherRegionsKept(old(dpu.bar0), dpu.bar0)
      ensures var k := if b.operation == 1 && b.num < 16 then LegalPrefix(b.data, b.num) else 0;
        && rv == (if b.operation == 1 && b.num < 16 && k < b.num then -1 else 0)
        && dpu.configBarBase == BaseAfter(old(dpu.configBarBase), b.data, k)
        && dpu.dev == Batch(old(dpu.dev), b.data, k)
    {
      hide RegionOf;
      if b.operation == 1 {
        if b.num < 16 {
          for i := 0 to b.num
            invariant dpu.Ready() && dpu.units == old(dpu.units)
            invariant SameRegs(dpu.bar0, old(dpu.bar0)) && OtherRegionsKept(old(dpu.bar0), dpu.bar0)
            invariant dpu.configBarBase == BaseAfter(old(dpu.configBarBase), b.data, i)
            invariant dpu.dev == Batch(old(dpu.dev), b.data, i)
            invariant LegalPrefix(b.data, b.num) >= i
          {
            var out;
            rv, out := dpu.RegsOperations(RegArgs(b.data[i].0, b.data[i].1, 1));
            if rv != 0 {
              return rv;
            }
          }
        }
      }
      return 0;
    }

    /** dma_llmode_transmit: a batch of fewer than sixteen writes, if enabled, is
        applied up to its first illegal address; unless it has one, an enabled
        transfer starts the engine once, with the channel set for a walk from
        `ptr` whatever its registers held. The batch moves the window and no
        channel register. */
    method DmaLlmodeTransmit(ptr: u64, enable: u32, b: RegInfos, wait: Wait) returns (ret: int)
      requires id < 16 && dpu.Ready() && WellFormed(b)
      modifies this, dpu`bar0, dpu`units, dpu`configBarBase, dpu`host, dpu`dev
      ensures dpu.Ready()
      ensures var k := if b.operation == 1 && b.num < 16 then LegalPrefix(b.data, b.num) else 0;
        var illegal := b.operation == 1 && b.num < 16 && k < b.num;
        var start := !illegal && enable == 1;
        var w := World(old(dpu.host), Batch(old(dpu.dev), b.data, k));
        && ret == (if illegal || wait.ends == TimedOut then -1 else 0)
        && Rung(old(dpu.units), dpu.units, (dir, id), if start then 1 else 0)
        && state == (if !illegal && wait.ends == Woken then COMPLETED else RUNNING)
        && dpu.configBarBase == BaseAfter(old(dpu.configBarBase), b.data, k)
        && SetForWalk(dpu.bar0, BlockAt(dir, id), ptr)
        && dpu.bar0(BlockAt(dir, id) + 0x4) == (if start then 1 else old(dpu.bar0)(BlockAt(dir, id) + 0x4))
        && SameRegs(dpu.bar0, Program(old(dpu.bar0), dir, id, ChainPhase(ptr) + if start then BELL else []))
        && OtherRegionsKept(old(dpu.bar0), dpu.bar0)
        && World(dpu.host, dpu.dev) == if start then Exec(dir, dpu.strict, Chain(ptr, 1), w, wait.steps).0 else w
    {
      hide Program, ConfigOf, RegionOf, SetForWalk, Exec, NoneStarted, Rung, UnitOf;
      ghost var rf := dpu.bar0;
      StartedAndRun(dpu.units, (dir, id), Some(Chain(ptr, 1)));
      NotStarted(dpu.units, (dir, id));
      SetAttr(0x3, 0, 2);
      EnableIntr(0x18);
      ProgramAppend(rf, dir, id, AttrWrites(0x3, 0, 2), IntrWrites(0x18));
      SetDescPointer(ptr);
      ProgramAppend(rf, dir, id, AttrWrites(0x3, 0, 2) + IntrWrites(0x18), PointerWrites(ptr));
      ChainPhaseConfigures(rf, dir, id, ptr);
      ProgramFrame(rf, dir, id, ChainPhase(ptr));
      state := RUNNING;
      ghost var programmed := dpu.bar0;
      assert ChainPhase(ptr) + [] == ChainPhase(ptr);
      ret := ApplyBatch(b);
      if ret != 0 {
        WalkReadback(rf, dpu.bar0, dir, id, ptr, []);
        return ret;
      }
      assert ConfigOf(dpu.bar0, dir, id) == Chain(ptr, 1) by {
        SameRegsSameConfig(programmed, dpu.bar0, dir, id);
      }
      if enable == 1 {
        ProgramFrame(dpu.bar0, dir, id, BELL);
        SameRegsBell(programmed, dpu.bar0, dir, id);
        ProgramAppend(rf, dir, id, ChainPhase(ptr), BELL);
        StartTransfer();
      }
      WalkReadback(rf, dpu.bar0, dir, id, ptr, if enable == 1 then BELL else []);
      ret := AwaitEngine(wait);
    }
  }

  /** What the channel's registers read after the phase, through whatever the batch
      did to the window. */
  lemma WalkReadback(rf: RegFile, rf': RegFile, dir: Direction, n: nat, ptr: u64, bell: Writes)
    requires n < 16 && (bell == [] || bell == BELL) && SameRegs(rf', Program(rf, dir, n, ChainPhase(ptr) + bell))
    ensures SetForWalk(rf', BlockAt(dir, n), ptr)
    ensures rf'(BlockAt(dir, n) + 0x4) == if bell == [] then rf(BlockAt(dir, n) + 0x4) else 1
  {
    hide BlockAt, Program, Reg, ChainPhase;
    ChainPhaseReadback(rf, dir, n, ptr, bell);
    RegAt(rf', dir, n);
    RegAt(Program(rf, dir, n, ChainPhase(ptr) + bell), dir, n);
  }

  /** Ringing the doorbell on both sides keeps the channel registers equal. */
  lemma SameRegsBell(rf: RegFile, rf': RegFile, dir: Direction, n: nat)
    requires SameRegs(rf', rf)
    ensures SameRegs(Program(rf', dir, n, BELL), Program(rf, dir, n, BELL))
  {
    hide Address;
    assert Program(rf', dir, n, BELL[..0]) == rf' && Program(rf, dir, n, BELL[..0]) == rf;
    var at := Address(dir, n, Doorbell);
    assert Program(rf', dir, n, BELL) == Set(rf', at, 1) && Program(rf, dir, n, BELL) == Set(rf, at, 1);
    forall d, m: nat, r | m < 16 ensures Reg(Set(rf', at, 1), d, m, r) == Reg(Set(rf, at, 1), d, m, r) {
      assert Reg(rf', d, m, r) == Reg(rf, d, m, r);
    }
  }

  lemma SameRegsSameConfig(rf: RegFile, rf': RegFile, dir: Direction, n: nat)
    requires n < 16 && SameRegs(rf', rf)
    ensures ConfigOf(rf, dir, n) == ConfigOf(rf', dir, n)
  {
  }
}
