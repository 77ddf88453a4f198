/** A channel's registers as the driver programs them for a transfer (hdma.c and
    the two transmit functions of test_dev.c), and what the engine reads back. */
module Channel {
  import opened Common
  import opened Words
  import opened Memory
  import opened Engine
  import opened Registers

  /** What a channel does when its doorbell rings: one plain copy, or a list walk. */
  datatype Config = Plain(job: Job) | Chain(ptr: u64, ccs: bit)

  function Reg(rf: RegFile, dir: Direction, n: nat, r: ChanReg): u32 { rf(Address(dir, n, r)) }

  /** Bit 0 of control1 selects list mode; bit 1 of cycle_off is the cycle state. */
  function ConfigOf(rf: RegFile, dir: Direction, n: nat): Config {
    if Reg(rf, dir, n, Control1) % 2 == 1 then
      Chain(Join(Reg(rf, dir, n, LlpLow), Reg(rf, dir, n, LlpHigh)), Reg(rf, dir, n, CycleOff) / 2 % 2)
    else
      Plain(Job(Join(Reg(rf, dir, n, SarLow), Reg(rf, dir, n, SarHigh)),
                Join(Reg(rf, dir, n, DarLow), Reg(rf, dir, n, DarHigh)),
                Reg(rf, dir, n, XferSize)))
  }

  /** The engine's work on `w` within `steps` steps, and whether it is done. */
  function Exec(dir: Direction, strict: bool, cfg: Config, w: World, steps: nat): (World, bool) {
    match cfg
    case Plain(job) => if steps == 0 then (w, false) else (Move(dir, w, job), true)
    case Chain(ptr, ccs) =>
      var r := Steps(dir, strict, Run(w, Active(ptr, ccs)), steps);
      (r.w, r.k.Halted?)
  }

  // -------------------------------------------------------------- doorbells

  /** The channel whose doorbell register is at `at`: the doorbells of the sixteen
      channel pairs lie 0x400 apart from 0x1004 on, write channels first. */
  function DoorbellAt(at: nat): Option<(Direction, nat)> {
    if at >= 0x1004 && (at - 0x1004) % 0x400 == 0 && (at - 0x1004) / 0x400 < 32 then
      var q := (at - 0x1004) / 0x400;
      Some((if q % 2 == 1 then RdCh else WrCh, q / 2))
    else None
  }

  /** What a store to BAR 0 makes the engines do: one with bit 0 set that reaches a
      channel's doorbell lets that channel latch what its registers say. */
  function Latched(rf: RegFile, at: nat, v: u32): Option<((Direction, nat), Config)> {
    match DoorbellAt(at)
    case None => None
    case Some(ch) => if v % 2 == 1 then Some((ch, ConfigOf(rf, ch.0, ch.1))) else None
  }

  /** A channel's engine: how often it was started, and what it has latched and not
      yet been run for. */
  datatype Unit = Unit(rings: nat, job: Option<Config>)

  type Units = map<(Direction, nat), Unit>

  function UnitOf(us: Units, ch: (Direction, nat)): Unit { if ch in us then us[ch] else Unit(0, None) }

  /** The engines after a store, on top of the registers `rf`. */
  function Kick(us: Units, rf: RegFile, at: nat, v: u32): Units {
    match Latched(rf, at, v)
    case None => us
    case Some((ch, cfg)) => us[ch := Unit(UnitOf(us, ch).rings + 1, Some(cfg))]
  }

  /** The engine's work for what it latched, if anything. */
  function Worked(dir: Direction, strict: bool, job: Option<Config>, w: World, steps: nat): World {
    match job
    case None => w
    case Some(cfg) => Exec(dir, strict, cfg, w, steps).0
  }

  /** Channel `ch` has been started `k` times more, and no engine has a start left
      to work off. */
  ghost predicate Rung(us: Units, us': Units, ch: (Direction, nat), k: nat) {
    forall c :: UnitOf(us', c) == Unit(UnitOf(us, c).rings + if c == ch then k else 0, None)
  }

  /** No engine has a start to work off. */
  ghost predicate NoneStarted(us: Units) { forall c :: UnitOf(us, c).job == None }

  /** Started once, and run for it. */
  lemma StartedAndRun(us: Units, ch: (Direction, nat), job: Option<Config>)
    requires NoneStarted(us)
    ensures var u := UnitOf(us, ch); var us' := us[ch := Unit(u.rings + 1, job)];
      && UnitOf(us', ch) == Unit(u.rings + 1, job)
      && Rung(us, us'[ch := Unit(u.rings + 1, None)], ch, 1) && NoneStarted(us'[ch := Unit(u.rings + 1, None)])
  {
    var u := UnitOf(us, ch);
    var us2 := us[ch := Unit(u.rings + 1, job)][ch := Unit(u.rings + 1, None)];
    forall c ensures UnitOf(us2, c) == Unit(UnitOf(us, c).rings + if c == ch then 1 else 0, None) {
      assert UnitOf(us, c).job == None;
    }
  }

  lemma NotStarted(us: Units, ch: (Direction, nat))
    requires NoneStarted(us)
    ensures UnitOf(us, ch).job == None
    ensures Rung(us, us, ch, 0) && Rung(us, us[ch := Unit(UnitOf(us, ch).rings, None)], ch, 0)
    ensures NoneStarted(us[ch := Unit(UnitOf(us, ch).rings, None)])
  {
    var us' := us[ch := Unit(UnitOf(us, ch).rings, None)];
    forall c ensures UnitOf(us, c) == Unit(UnitOf(us, c).rings, None) == UnitOf(us', c) {
      assert UnitOf(us, c).job == None;
    }
  }

  /** Only a doorbell register of the sixteen pairs starts anything, and it starts
      its own channel. */
  lemma OnlyDoorbells(d: Direction, n: nat, r: ChanReg)
    ensures DoorbellAt(Address(d, n, r)) == if r == Doorbell && n < 16 then Some((d, n)) else None
  {
    var q := 2 * n + if d == RdCh then 1 else 0;
    assert Address(d, n, r) == 0x1000 + 0x400 * q + Offset(r);
    OffsetBound(r);
    hide Offset, ChanRegAt;
    assert Offset(r) == 4 <==> r == Doorbell by {
      AddressInjective(d, n, r, d, n, Doorbell);
      DoorbellOffset();
    }
  }

  lemma DoorbellOffset()
    ensures Offset(Doorbell) == 4
  {
  }

  lemma NoAtuDoorbell(d: AtuDir, n: nat, r: AtuReg)
    ensures DoorbellAt(AtuAddress(d, n, r)) == None
  {
  }

  type Writes = seq<(ChanReg, u32)>

  /** The register file after the stores `ws` to channel `n`, in order. */
  function Program(rf: RegFile, dir: Direction, n: nat, ws: Writes): RegFile {
    if ws == [] then rf
    else Set(Program(rf, dir, n, ws[..|ws| - 1]), Address(dir, n, ws[|ws| - 1].0), ws[|ws| - 1].1)
  }

  lemma {:induction false} ProgramAppend(rf: RegFile, dir: Direction, n: nat, a: Writes, b: Writes)
    ensures Program(Program(rf, dir, n, a), dir, n, b) == Program(rf, dir, n, a + b)
  {
    if b == [] {
      assert a + b == a;
    } else {
      ProgramAppend(rf, dir, n, a, b[..|b| - 1]);
      assert (a + b)[..|a + b| - 1] == a + b[..|b| - 1];
    }
  }

  /** A register of the channel holds the last value stored to it. */
  lemma {:induction false} ProgramLast(rf: RegFile, dir: Direction, n: nat, ws: Writes, k: nat)
    requires k < |ws| && forall i | k < i < |ws| :: ws[i].0 != ws[k].0
    ensures Reg(Program(rf, dir, n, ws), dir, n, ws[k].0) == ws[k].1
  {
    var last := ws[|ws| - 1].0;
    AddressInjective(dir, n, last, dir, n, ws[k].0);
    if k < |ws| - 1 {
      ProgramLast(rf, dir, n, ws[..|ws| - 1], k);
    }
  }

  /** Registers of other channels, and the translation unit's, keep their values. */
  lemma {:induction false} ProgramElsewhere(rf: RegFile, dir: Direction, n: nat, ws: Writes, at: nat)
    requires forall r :: at != Address(dir, n, r)
    ensures Program(rf, dir, n, ws)(at) == rf(at)
  {
    if ws != [] {
      ProgramElsewhere(rf, dir, n, ws[..|ws| - 1], at);
    }
  }

  lemma ProgramFrame(rf: RegFile, dir: Direction, n: nat, ws: Writes)
    requires n < 16
    ensures var rf' := Program(rf, dir, n, ws);
      && (forall d, m: nat, r | (d, m) != (dir, n) :: Reg(rf', d, m, r) == Reg(rf, d, m, r))
      && (forall d, m: nat :: RegionOf(rf', d, m) == RegionOf(rf, d, m))
  {
    var rf' := Program(rf, dir, n, ws);
    forall d, m: nat, r | (d, m) != (dir, n) ensures Reg(rf', d, m, r) == Reg(rf, d, m, r) {
      forall r' ensures Address(d, m, r) != Address(dir, n, r') {
        AddressInjective(d, m, r, dir, n, r');
      }
      ProgramElsewhere(rf, dir, n, ws, Address(d, m, r));
    }
    forall d, m: nat ensures RegionOf(rf', d, m) == RegionOf(rf, d, m) {
      forall r: AtuReg ensures rf'(AtuAddress(d, m, r)) == rf(AtuAddress(d, m, r)) {
        forall r' ensures AtuAddress(d, m, r) != Address(dir, n, r') {
          BelowAtu(dir, n, r', d, m, r);
        }
        ProgramElsewhere(rf, dir, n, ws, AtuAddress(d, m, r));
      }
    }
  }

  function AttrWrites(control1: u32, pf: u32, cycleOff: u32): Writes {
    [(ElemPf, pf), (CycleOff, cycleOff), (Control1, control1)]
  }

  function XferWrites(size: u32, src: u64, dst: u64): Writes {
    [(XferSize, size), (SarLow, Lo32(src)), (SarHigh, Hi32(src)), (DarLow, Lo32(dst)), (DarHigh, Hi32(dst))]
  }

  function PointerWrites(ptr: u64): Writes {
    [(LlpLow, Lo32(ptr)), (LlpHigh, Hi32(ptr))]
  }

  function IntrWrites(mask: u32): Writes { [(IntSetup, if mask == 0 then 0x7f else mask)] }

  /** The stores of tranfer_desc, up to its doorbell. */
  function DescPhase(size: u32, src: u64, dst: u64): Writes {
    AttrWrites(0xd0000, 0, 0) + IntrWrites(0x3d) + XferWrites(size, src, dst)
  }

  /** The stores of dma_llmode_transmit, up to its doorbell. */
  function ChainPhase(ptr: u64): Writes {
    AttrWrites(0x3, 0, 2) + IntrWrites(0x18) + PointerWrites(ptr)
  }

  const BELL: Writes := [(Doorbell, 1)]

  /** Where the registers of a channel begin. */
  function BlockAt(dir: Direction, n: nat): nat { 0x1000 + n * 0x800 + if dir == RdCh then 0x400 else 0 }

  /** The registers as tranfer_desc leaves them for the doorbell, read back. */
  ghost predicate SetForCopy(rf: RegFile, at: nat, size: u32, src: u64, dst: u64) {
    && rf(at + 0x08) == 0 && rf(at + 0x18) == 0 && rf(at + 0x34) == 0xd0000 && rf(at + 0x88) == 0x3d
    && rf(at + 0x1c) == size
    && rf(at + 0x20) == src % 0x1_0000_0000 && rf(at + 0x24) == src / 0x1_0000_0000
    && rf(at + 0x28) == dst % 0x1_0000_0000 && rf(at + 0x2c) == dst / 0x1_0000_0000
  }

  /** And as dma_llmode_transmit leaves them. */
  ghost predicate SetForWalk(rf: RegFile, at: nat, ptr: u64) {
    && rf(at + 0x08) == 0 && rf(at + 0x18) == 2 && rf(at + 0x34) == 0x3 && rf(at + 0x88) == 0x18
    && rf(at + 0x10) == ptr % 0x1_0000_0000 && rf(at + 0x14) == ptr / 0x1_0000_0000
  }

  lemma RegAt(rf: RegFile, dir: Direction, n: nat)
    ensures var at := BlockAt(dir, n);
      && Reg(rf, dir, n, Doorbell) == rf(at + 0x4) && Reg(rf, dir, n, ElemPf) == rf(at + 0x8)
      && Reg(rf, dir, n, LlpLow) == rf(at + 0x10) && Reg(rf, dir, n, LlpHigh) == rf(at + 0x14)
      && Reg(rf, dir, n, CycleOff) == rf(at + 0x18) && Reg(rf, dir, n, XferSize) == rf(at + 0x1c)
      && Reg(rf, dir, n, SarLow) == rf(at + 0x20) && Reg(rf, dir, n, SarHigh) == rf(at + 0x24)
      && Reg(rf, dir, n, DarLow) == rf(at + 0x28) && Reg(rf, dir, n, DarHigh) == rf(at + 0x2c)
      && Reg(rf, dir, n, Control1) == rf(at + 0x34) && Reg(rf, dir, n, IntSetup) == rf(at + 0x88)
  {
  }

  ghost predicate Spares(ws: Writes, r: ChanReg) { forall k | 0 <= k < |ws| :: ws[k].0 != r }

  ghost predicate Distinct(ws: Writes) { forall i, k | 0 <= i < k < |ws| :: ws[i].0 != ws[k].0 }

  /** A register stored to once holds what was stored. */
  lemma OnceStored(rf: RegFile, dir: Direction, n: nat, ws: Writes, k: nat, r: ChanReg, v: u32)
    requires Distinct(ws) && k < |ws| && ws[k] == (r, v)
    ensures Reg(Program(rf, dir, n, ws), dir, n, r) == v
  {
    ProgramLast(rf, dir, n, ws, k);
  }

  lemma DescWrites(size: u32, src: u64, dst: u64, bell: Writes)
    requires bell == [] || bell == BELL
    ensures var ws := DescPhase(size, src, dst) + bell;
      && |ws| == 9 + |bell| && ws[0] == (ElemPf, 0) && ws[1] == (CycleOff, 0) && ws[2] == (Control1, 0xd0000)
      && ws[3] == (IntSetup, 0x3d) && ws[4] == (XferSize, size) && ws[5] == (SarLow, Lo32(src)) && ws[6] == (SarHigh, Hi32(src))
      && ws[7] == (DarLow, Lo32(dst)) && ws[8] == (DarHigh, Hi32(dst)) && (bell != [] ==> ws[9] == (Doorbell, 1))
    ensures Distinct(DescPhase(size, src, dst) + bell)
    ensures bell == [] ==> Spares(DescPhase(size, src, dst) + bell, Doorbell)
  {
    DescElements(size, src, dst, bell);
    var ws := DescPhase(size, src, dst) + bell;
    hide DescPhase;
    forall k | 0 <= k < |ws| ensures DescPlace(ws[k].0) == k {
    }
  }

  /** The place of a register in the list phase's stores. */
  function DescPlace(r: ChanReg): nat {
    match r
    case ElemPf => 0 case CycleOff => 1 case Control1 => 2 case IntSetup => 3 case XferSize => 4
    case SarLow => 5 case SarHigh => 6 case DarLow => 7 case DarHigh => 8 case _ => 9
  }

  lemma DescElements(size: u32, src: u64, dst: u64, bell: Writes)
    requires bell == [] || bell == BELL
    ensures var ws := DescPhase(size, src, dst) + bell;
      && |ws| == 9 + |bell| && ws[0] == (ElemPf, 0) && ws[1] == (CycleOff, 0) && ws[2] == (Control1, 0xd0000)
      && ws[3] == (IntSetup, 0x3d) && ws[4] == (XferSize, size) && ws[5] == (SarLow, Lo32(src)) && ws[6] == (SarHigh, Hi32(src))
      && ws[7] == (DarLow, Lo32(dst)) && ws[8] == (DarHigh, Hi32(dst)) && (bell != [] ==> ws[9] == (Doorbell, 1))
  {
  }

  lemma ChainWrites(ptr: u64, bell: Writes)
    requires bell == [] || bell == BELL
    ensures var ws := ChainPhase(ptr) + bell;
      && |ws| == 6 + |bell| && ws[0] == (ElemPf, 0) && ws[1] == (CycleOff, 2) && ws[2] == (Control1, 0x3)
      && ws[3] == (IntSetup, 0x18) && ws[4] == (LlpLow, Lo32(ptr)) && ws[5] == (LlpHigh, Hi32(ptr))
      && (bell != [] ==> ws[6] == (Doorbell, 1))
    ensures Distinct(ChainPhase(ptr) + bell)
    ensures bell == [] ==> Spares(ChainPhase(ptr) + bell, Doorbell)
  {
  }

  lemma DescReads(rf: RegFile, dir: Direction, n: nat, size: u32, src: u64, dst: u64, bell: Writes)
    requires bell == [] || bell == BELL
    ensures var rf' := Program(rf, dir, n, DescPhase(size, src, dst) + bell);
      && Reg(rf', dir, n, ElemPf) == 0 && Reg(rf', dir, n, CycleOff) == 0 && Reg(rf', dir, n, Control1) == 0xd0000
      && Reg(rf', dir, n, IntSetup) == 0x3d && Reg(rf', dir, n, XferSize) == size
      && Reg(rf', dir, n, SarLow) == Lo32(src) && Reg(rf', dir, n, SarHigh) == Hi32(src)
      && Reg(rf', dir, n, DarLow) == Lo32(dst) && Reg(rf', dir, n, DarHigh) == Hi32(dst)
      && Reg(rf', dir, n, Doorbell) == if bell == [] then Reg(rf, dir, n, Doorbell) else 1
  {
    hide Reg, DescPhase, Program, Distinct, Spares;
    var ws := DescPhase(size, src, dst) + bell;
    DescWrites(size, src, dst, bell);
    OnceStored(rf, dir, n, ws, 0, ElemPf, 0);
    OnceStored(rf, dir, n, ws, 1, CycleOff, 0);
    OnceStored(rf, dir, n, ws, 2, Control1, 0xd0000);
    OnceStored(rf, dir, n, ws, 3, IntSetup, 0x3d);
    OnceStored(rf, dir, n, ws, 4, XferSize, size);
    OnceStored(rf, dir, n, ws, 5, SarLow, Lo32(src));
    OnceStored(rf, dir, n, ws, 6, SarHigh, Hi32(src));
    OnceStored(rf, dir, n, ws, 7, DarLow, Lo32(dst));
    OnceStored(rf, dir, n, ws, 8, DarHigh, Hi32(dst));
    if bell == [] {
      NotStored(rf, dir, n, ws, Doorbell);
    } else {
      OnceStored(rf, dir, n, ws, 9, Doorbell, 1);
    }
  }

  lemma ChainReads(rf: RegFile, dir: Direction, n: nat, ptr: u64, bell: Writes)
    requires bell == [] || bell == BELL
    ensures var rf' := Program(rf, dir, n, ChainPhase(ptr) + bell);
      && Reg(rf', dir, n, ElemPf) == 0 && Reg(rf', dir, n, CycleOff) == 2 && Reg(rf', dir, n, Control1) == 0x3
      && Reg(rf', dir, n, IntSetup) == 0x18 && Reg(rf', dir, n, LlpLow) == Lo32(ptr) && Reg(rf', dir, n, LlpHigh) == Hi32(ptr)
      && Reg(rf', dir, n, Doorbell) == if bell == [] then Reg(rf, dir, n, Doorbell) else 1
  {
    hide Reg, ChainPhase, Program, Distinct, Spares;
    var ws := ChainPhase(ptr) + bell;
    ChainWrites(ptr, bell);
    OnceStored(rf, dir, n, ws, 0, ElemPf, 0);
    OnceStored(rf, dir, n, ws, 1, CycleOff, 2);
    OnceStored(rf, dir, n, ws, 2, Control1, 0x3);
    OnceStored(rf, dir, n, ws, 3, IntSetup, 0x18);
    OnceStored(rf, dir, n, ws, 4, LlpLow, Lo32(ptr));
    OnceStored(rf, dir, n, ws, 5, LlpHigh, Hi32(ptr));
    if bell == [] {
      NotStored(rf, dir, n, ws, Doorbell);
    } else {
      OnceStored(rf, dir, n, ws, 6, Doorbell, 1);
    }
  }

  /** Whatever the registers held, the stores of tranfer_desc leave these values,
      with or without the doorbell's. */
  lemma DescPhaseReadback(rf: RegFile, dir: Direction, n: nat, size: u32, src: u64, dst: u64, bell: Writes)
    requires bell == [] || bell == BELL
    ensures var rf' := Program(rf, dir, n, DescPhase(size, src, dst) + bell);
      && SetForCopy(rf', BlockAt(dir, n), size, src, dst)
      && rf'(BlockAt(dir, n) + 0x4) == if bell == [] then rf(BlockAt(dir, n) + 0x4) else 1
  {
    hide Reg, BlockAt, DescPhase, Program;
    DescReads(rf, dir, n, size, src, dst, bell);
    RegAt(rf, dir, n);
    RegAt(Program(rf, dir, n, DescPhase(size, src, dst) + bell), dir, n);
  }

  lemma ChainPhaseReadback(rf: RegFile, dir: Direction, n: nat, ptr: u64, bell: Writes)
    requires bell == [] || bell == BELL
    ensures var rf' := Program(rf, dir, n, ChainPhase(ptr) + bell);
      && SetForWalk(rf', BlockAt(dir, n), ptr)
      && rf'(BlockAt(dir, n) + 0x4) == if bell == [] then rf(BlockAt(dir, n) + 0x4) else 1
  {
    hide Reg, BlockAt, ChainPhase, Program;
    ChainReads(rf, dir, n, ptr, bell);
    RegAt(rf, dir, n);
    RegAt(Program(rf, dir, n, ChainPhase(ptr) + bell), dir, n);
  }

  /** A register that no store names keeps its value. */
  lemma {:induction false} NotStored(rf: RegFile, dir: Direction, n: nat, ws: Writes, r: ChanReg)
    requires Spares(ws, r)
    ensures Reg(Program(rf, dir, n, ws), dir, n, r) == Reg(rf, dir, n, r)
  {
    if ws != [] {
      AddressInjective(dir, n, ws[|ws| - 1].0, dir, n, r);
      NotStored(rf, dir, n, ws[..|ws| - 1], r);
    }
  }

  /** Whatever the channel's registers held, tranfer_desc makes the next doorbell
      one plain copy: every register that mode reads is rewritten. */
  lemma DescPhaseConfigures(rf: RegFile, dir: Direction, n: nat, size: u32, src: u64, dst: u64)
    ensures ConfigOf(Program(rf, dir, n, DescPhase(size, src, dst)), dir, n) == Plain(Job(src, dst, size))
  {
    hide Program, Reg, BlockAt;
    assert DescPhase(size, src, dst) + [] == DescPhase(size, src, dst);
    DescPhaseReadback(rf, dir, n, size, src, dst, []);
    RegAt(Program(rf, dir, n, DescPhase(size, src, dst)), dir, n);
  }

  /** Likewise dma_llmode_transmit makes it a walk from `ptr` in cycle state 1. */
  lemma ChainPhaseConfigures(rf: RegFile, dir: Direction, n: nat, ptr: u64)
    ensures ConfigOf(Program(rf, dir, n, ChainPhase(ptr)), dir, n) == Chain(ptr, 1)
  {
    hide Program, Reg, BlockAt;
    assert ChainPhase(ptr) + [] == ChainPhase(ptr);
    ChainPhaseReadback(rf, dir, n, ptr, []);
    RegAt(Program(rf, dir, n, ChainPhase(ptr)), dir, n);
  }
}
