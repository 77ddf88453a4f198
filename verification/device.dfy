/** The device as the driver holds it: BAR 0, the two memories, the register
    window and the ledger of kernel resources (iatu.c, test_dev.c). */
module Device {
  import opened Common
  import opened Words
  import opened Memory
  import opened Engine
  import opened Registers
  import opened Channel
  import opened Scatter
  import opened Window

  /** What the driver takes from the kernel and has to give back. */
  datatype Resource =
    | Blocks | PageArray | Pin(page: nat) | SgHeader | SgEntries | SgMapping
    | DescBuffer | DescMapping | ArgBuffer

  /** How many of `pages` are page `p`; a null page is never counted. */
  function Count(pages: seq<nat>, p: nat): nat {
    if pages == [] then 0
    else Count(pages[..|pages| - 1], p) + if pages[|pages| - 1] == p && p != 0 then 1 else 0
  }

  /** What a caller holds of `r` after dpu_get_pages succeeded with `blocks`. */
  function BlocksHeld(blocks: seq<nat>, r: Resource): int {
    match r
    case Blocks => 1
    case Pin(p) => Count(blocks, p)
    case _ => 0
  }

  /** The kernel's answers in dpu_get_pages: two allocations, the result of
      get_user_pages_fast, and what the page array holds after it. */
  datatype PinOutcome = PinOutcome(blocksOk: bool, arrayOk: bool, pinned: int, pages: seq<nat>)

  /** From 2^31 pages on the driver's int counters no longer hold the count; there
      only the failures of the two allocations are covered. */
  ghost predicate HonestPin(o: PinOutcome, addr: u64, len: u64) {
    && |o.pages| == PagesNr(addr, len)
    && (o.blocksOk && o.arrayOk ==> PagesNr(addr, len) < 0x8000_0000)
    && -0x8000_0000 <= o.pinned <= |o.pages|
  }

  /** Pages the driver will release without having pinned them: a negative result
      compares as a large unsigned number, so it passes as success. */
  function Stray(o: PinOutcome, r: Resource): int {
    if o.blocksOk && o.arrayOk && o.pinned < 0 && r.Pin? then Count(o.pages, r.page) else 0
  }

  class EonDevice {
    const strict: bool
    var bar0: RegFile
    var host: Mem
    var dev: Mem
    var configBarBase: u64
    var units: Units
    var held: Resource -> int

    /** Both maps show where the driver believes the window is, and no engine has a
        start to work off, as between any two calls. */
    ghost predicate Ready()
      reads this
    {
      WindowOk(bar0, configBarBase) && NoneStarted(units)
    }

    /** The state probe leaves: no window yet, region 0 on the descriptor memory in
        both directions. */
    constructor (strict: bool, rf: RegFile, host: Mem, dev: Mem)
      ensures Ready() && configBarBase == 0 && units == map[]
      ensures RegionOf(bar0, Inbound, 0) == RegionOf(bar0, Outbound, 0) == Region(0x4800_0000, 0x8_0000, 0xc000_0400)
      ensures this.strict == strict && this.host == host && this.dev == dev
      ensures forall r :: held(r) == 0
    {
      hide MapWrites, SetAll, RegionOf;
      this.strict := strict;
      bar0 := rf;
      this.host := host;
      this.dev := dev;
      configBarBase := 0;
      units := map[];
      held := r => 0;
      new;
      var _ := IatuMapInboundBar(4, 0, 0x4800_0000, 0x8_0000);
      var _ := IatuMapOutboundBar(4, 0, 0x4800_0000, 0x8_0000);
      BothMapsSet(rf, 0, 4, 0x4800_0000, 0x8_0000);
    }

    method Take(r: Resource)
      modifies this`held
      ensures forall x :: held(x) == old(held)(x) + if x == r then 1 else 0
    {
      var h := held;
      held := x => h(x) + if x == r then 1 else 0;
    }

    method Give(r: Resource)
      modifies this`held
      ensures forall x :: held(x) == old(held)(x) - if x == r then 1 else 0
    {
      var h := held;
      held := x => h(x) - if x == r then 1 else 0;
    }

    /** A 32-bit store to BAR 0, with what it makes the engines do. */
    method Writel(at: nat, v: u32)
      modifies this`bar0, this`units
      ensures bar0 == Set(old(bar0), at, v) && units == Kick(old(units), old(bar0), at, v)
    {
      units := Kick(units, bar0, at, v);
      bar0 := Set(bar0, at, v);
    }

    method WriteAtu(d: AtuDir, n: nat, r: AtuReg, v: u32)
      modifies this`bar0, this`units
      ensures bar0 == Set(old(bar0), AtuAddress(d, n, r), v) && units == old(units)
    {
      NoAtuDoorbell(d, n, r);
      Writel(AtuAddress(d, n, r), v);
    }

    method IatuMapInboundBar(bar: nat, n: nat, addr: u64, size: u64) returns (ret: int)
      requires bar < 8
      modifies this`bar0, this`units
      ensures units == old(units)
      ensures size > 0x100_0000 ==> ret == -1 && bar0 == old(bar0)
      ensures size <= 0x100_0000 ==> ret == 0 && MapStored(old(bar0), bar0, 0x9100 + n * 0x200, bar, addr, size)
      ensures size <= 0x100_0000 ==> bar0 == SetAll(old(bar0), MapWrites(Inbound, n, bar, addr, size))
    {
      if size > 0x100_0000 {
        return -1;
      }
      WriteAtu(Inbound, n, LwrTarget, Lo32(addr));
      WriteAtu(Inbound, n, UpperTarget, Hi32(addr));
      WriteAtu(Inbound, n, Ctrl1, size % 0x200_0000);
      WriteAtu(Inbound, n, Ctrl2, 0xc000_0000 + bar * 0x100);
      SetAllFour(old(bar0), MapWrites(Inbound, n, bar, addr, size));
      return 0;
    }

    method IatuMapOutboundBar(bar: nat, n: nat, addr: u64, size: u64) returns (ret: int)
      requires bar < 8
      modifies this`bar0, this`units
      ensures units == old(units)
      ensures size > 0x100_0000 ==> ret == -1 && bar0 == old(bar0)
      ensures size <= 0x100_0000 ==> ret == 0 && MapStored(old(bar0), bar0, 0x9000 + n * 0x200, bar, addr, size)
      ensures size <= 0x100_0000 ==> bar0 == SetAll(old(bar0), MapWrites(Outbound, n, bar, addr, size))
    {
      if size > 0x100_0000 {
        return -1;
      }
      WriteAtu(Outbound, n, LwrTarget, Lo32(addr));
      WriteAtu(Outbound, n, UpperTarget, Hi32(addr));
      WriteAtu(Outbound, n, Ctrl1, size % 0x200_0000);
      WriteAtu(Outbound, n, Ctrl2, 0xc000_0000 + bar * 0x100);
      SetAllFour(old(bar0), MapWrites(Outbound, n, bar, addr, size));
      return 0;
    }

    /** The window part the two register paths share. */
    method SlideWindow(mapAddr: u64)
      requires WindowOk(bar0, configBarBase) && mapAddr > 0
      modifies this`bar0, this`configBarBase, this`units
      ensures WindowOk(bar0, configBarBase) && configBarBase == mapAddr && units == old(units)
      ensures mapAddr == old(configBarBase) ==> bar0 == old(bar0)
      ensures OtherRegionsKept(old(bar0), bar0)
      ensures forall d, m: nat, r | m < 16 :: Reg(bar0, d, m, r) == Reg(old(bar0), d, m, r)
    {
      if mapAddr != configBarBase {
        hide MapWrites, SetAll, RegionOf;
        var _ := IatuMapInboundBar(2, 1, mapAddr, 0x100_0000);
        var _ := IatuMapOutboundBar(2, 1, mapAddr, 0x100_0000);
        BothMapsSet(old(bar0), 1, 2, mapAddr, 0x100_0000);
        configBarBase := mapAddr;
      }
    }

    /** regs_operations: 32-bit accesses only, any other flag succeeds idly. */
    method RegsOperations(a: RegArgs) returns (ret: int, out: RegArgs)
      requires Ready()
      modifies this`bar0, this`configBarBase, this`dev, this`units
      ensures Ready() && units == old(units) && OtherRegionsKept(old(bar0), bar0)
      ensures ret == 0 <==> 0x4000_0000 <= a.addr <= 0xf000_0000
      ensures ret == 0 ==> RegionOf(bar0, Inbound, 1) == RegionOf(bar0, Outbound, 1) == Region(configBarBase, 0x100_0000, 0xc000_0200)
      ensures !InRange(a.addr) ==> ret == -1 && out == a && dev == old(dev) && bar0 == old(bar0) && configBarBase == old(configBarBase)
      ensures InRange(a.addr) ==> ret == 0 && configBarBase == a.addr - a.addr % 0x100_0000
      ensures InRange(a.addr) ==> (dev, out) == if a.flag <= 2 then WindowOp(old(dev), a) else (old(dev), a)
      ensures forall d, m: nat, r | m < 16 :: Reg(bar0, d, m, r) == Reg(old(bar0), d, m, r)
    {
      if !InRange(a.addr) {
        return -1, a;
      }
      var off := a.addr % 0x100_0000;
      var mapAddr := a.addr - off;
      SlideWindow(mapAddr);
      WindowRefines(bar0, configBarBase, dev, a);
      out := a;
      if a.flag == 1 {
        dev := BarWrite(bar0, dev, off, 4, a.data);
      } else if a.flag == 2 {
        out := a.(data := BarRead(bar0, dev, off, 4));
      }
      return 0, out;
    }

    /** eon_rw_reg from its copied arguments on, with the outcome of the argument
        allocation and of the two user copies. A rejected address leaks the
        argument buffer; nothing else does. */
    method EonRwReg(a: RegArgs, allocOk: bool, copyInOk: bool, copyOutOk: bool) returns (ret: int, out: RegArgs)
      requires Ready()
      modifies this`bar0, this`configBarBase, this`dev, this`held, this`units
      ensures Ready() && units == old(units) && OtherRegionsKept(old(bar0), bar0)
      ensures forall d, m: nat, r | m < 16 :: Reg(bar0, d, m, r) == Reg(old(bar0), d, m, r)
      ensures ret == if !allocOk then -1 else if !copyInOk then -2 else if !InRange(a.addr) then -1
                     else if !copyOutOk then -3 else 0
      ensures allocOk && copyInOk && InRange(a.addr) ==> (dev, out) == WindowOp(old(dev), a)
      ensures !(allocOk && copyInOk && InRange(a.addr)) ==> dev == old(dev) && out == a
      ensures !(allocOk && copyInOk && InRange(a.addr)) ==> bar0 == old(bar0)
      ensures configBarBase == if allocOk && copyInOk && InRange(a.addr) then a.addr - a.addr % 0x100_0000 else old(configBarBase)
      ensures forall r :: held(r) == old(held)(r)
                + if r == ArgBuffer && allocOk && copyInOk && !InRange(a.addr) then 1 else 0
    {
      out := a;
      if !allocOk {
        return -1, out;
      }
      Take(ArgBuffer);
      if !copyInOk {
        Give(ArgBuffer);
        return -2, out;
      }
      if !InRange(a.addr) {
        return -1, out;
      }
      var off := a.addr % 0x100_0000;
      var mapAddr := a.addr - off;
      SlideWindow(mapAddr);
      WindowRefines(bar0, configBarBase, dev, a);
      match a.flag {
        case 1 => dev := BarWrite(bar0, dev, off, 4, a.data);
        case 2 => out := a.(data := BarRead(bar0, dev, off, 4));
        case 3 => dev := BarWrite(bar0, dev, off, 2, a.data);
        case 4 => out := a.(data := BarRead(bar0, dev, off, 2));
        case _ =>
      }
      ret := if copyOutOk then 0 else -3;
      Give(ArgBuffer);
    }
  }

  /** The four stores at a region's registers, and no other. */
  ghost predicate MapStored(rf: RegFile, rf': RegFile, at: nat, bar: nat, addr: u64, size: u64) {
    && rf'(at + 0x14) == addr % 0x1_0000_0000 && rf'(at + 0x18) == addr / 0x1_0000_0000
    && rf'(at) == size && rf'(at + 0x4) == 0xc000_0000 + bar * 0x100
    && forall x: nat | x != at && x != at + 0x4 && x != at + 0x14 && x != at + 0x18 :: rf'(x) == rf(x)
  }

  /** The driver maps both directions; in each, only region `n` has changed. */
  lemma BothMapsSet(rf: RegFile, n: nat, bar: nat, addr: u64, size: nat)
    requires bar < 8 && size <= 0x100_0000
    ensures var rf' := SetAll(SetAll(rf, MapWrites(Inbound, n, bar, addr, size)), MapWrites(Outbound, n, bar, addr, size));
      && (forall d :: RegionOf(rf', d, n) == Region(addr, size, 0xc000_0000 + bar * 0x100))
      && (forall d, m: nat | m != n :: RegionOf(rf', d, m) == RegionOf(rf, d, m))
      && (forall d, m: nat, r | m < 16 :: rf'(Address(d, m, r)) == rf(Address(d, m, r)))
  {
    hide MapWrites, SetAll, RegionOf;
    var rf1 := SetAll(rf, MapWrites(Inbound, n, bar, addr, size));
    MapSetsOneRegion(rf, Inbound, n, bar, addr, size);
    MapSetsOneRegion(rf1, Outbound, n, bar, addr, size);
    var rf2 := SetAll(rf1, MapWrites(Outbound, n, bar, addr, size));
    forall d ensures RegionOf(rf2, d, n) == Region(addr, size, 0xc000_0000 + bar * 0x100) {
      if d == Inbound {
        assert RegionOf(rf2, Inbound, n) == RegionOf(rf1, Inbound, n);
      }
    }
  }

  lemma SetAllFour(rf: RegFile, ws: seq<(nat, u32)>)
    requires |ws| == 4
    ensures SetAll(rf, ws) == Set(Set(Set(Set(rf, ws[0].0, ws[0].1), ws[1].0, ws[1].1), ws[2].0, ws[2].1), ws[3].0, ws[3].1)
  {
    assert ws[..3][..2] == ws[..2] && ws[..2][..1] == ws[..1] && ws[..1][..0] == [];
    assert SetAll(rf, ws[..1]) == Set(rf, ws[0].0, ws[0].1);
    assert SetAll(rf, ws[..2]) == Set(SetAll(rf, ws[..1]), ws[1].0, ws[1].1);
    assert SetAll(rf, ws[..3]) == Set(SetAll(rf, ws[..2]), ws[2].0, ws[2].1);
  }
}
