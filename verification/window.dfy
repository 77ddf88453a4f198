/** The sliding register window: BAR 2 shows 16 MiB of device memory, moved by
    reprogramming translation region 1 (iatu.c, and the register paths of
    test_dev.c). The flat register file is device memory itself. */
module Window {
  import opened Common
  import opened Words
  import opened Memory
  import opened Registers

  /** The arguments of a register operation: flag 1 writes and 2 reads 32 bits,
      3 writes and 4 reads 16; other flags do nothing. */
  datatype RegArgs = RegArgs(addr: u64, data: u32, flag: byte)

  function WidthOf(flag: byte): nat { if flag == 3 || flag == 4 then 2 else 4 }

  predicate InRange(addr: u64) { 0x4000_0000 <= addr <= 0xf000_0000 }

  function FlatWrite(dev: Mem, addr: nat, width: nat, data: u32): Mem {
    Store(dev, addr, ToBytes(data, width))
  }

  function FlatRead(dev: Mem, addr: nat, width: nat): nat {
    FromBytes(Read(dev, addr, width))
  }

  /** The operation on a flat register file indexed by the full address. */
  function FlatOp(dev: Mem, a: RegArgs): (Mem, RegArgs) {
    var width := WidthOf(a.flag);
    if a.flag == 1 || a.flag == 3 then (FlatWrite(dev, a.addr, width, a.data), a)
    else if a.flag == 2 || a.flag == 4 then
      assert Pow256(2) == 0x1_0000 && Pow256(4) == 0x1_0000_0000;
      (dev, a.(data := FlatRead(dev, a.addr, width)))
    else (dev, a)
  }

  /** The inbound region that catches an access to `bar`: the first that matches. */
  function Catching(rf: RegFile, bar: nat, n: nat): Option<Region>
    decreases 8 - n
  {
    if n >= 8 then None
    else if RegionOf(rf, Inbound, n).Matches(bar) then Some(RegionOf(rf, Inbound, n))
    else Catching(rf, bar, n + 1)
  }

  /** Where an access to `bar` lands in device memory. One that does not fit
      under the region's size goes nowhere. */
  function Translate(rf: RegFile, bar: nat, off: nat, width: nat): Option<nat> {
    match Catching(rf, bar, 0)
    case None => None
    case Some(r) => if off + width <= r.size then Some(r.target + off) else None
  }

  function BarWrite(rf: RegFile, dev: Mem, off: nat, width: nat, data: u32): Mem {
    match Translate(rf, 2, off, width)
    case Some(at) => Store(dev, at, ToBytes(data, width))
    case None => dev
  }

  /** A read that lands nowhere returns ones, as PCIe reads do. */
  function BarRead(rf: RegFile, dev: Mem, off: nat, width: nat): nat {
    match Translate(rf, 2, off, width)
    case Some(at) => FromBytes(Read(dev, at, width))
    case None => Pow256(width) - 1
  }

  function Region1(base: u64): Region { Region(base, 0x100_0000, 0xc000_0200) }

  /** Region 0 shows the descriptor memory in BAR 4; region 1, once the driver
      has set it, shows the window `base` in BAR 2. The outbound regions are
      programmed alike. */
  ghost predicate WindowOk(rf: RegFile, base: u64) {
    forall d :: RegionOf(rf, d, 0) == Region(0x4800_0000, 0x8_0000, 0xc000_0400)
             && (base == 0 || RegionOf(rf, d, 1) == Region1(base))
  }

  /** Region 1 is the only one that differs. */
  ghost predicate OtherRegionsKept(rf: RegFile, rf': RegFile) {
    forall d, m: nat | m != 1 :: RegionOf(rf', d, m) == RegionOf(rf, d, m)
  }

  /** The access stays in its 16 MiB window. */
  predicate Fits(addr: u64, width: nat) { addr % 0x100_0000 + width <= 0x100_0000 }

  lemma AlignedFits(addr: u64, width: nat)
    requires (width == 2 && addr % 2 == 0) || (width == 4 && addr % 4 == 0)
    ensures Fits(addr, width)
  {
    var x, q := addr % 0x100_0000, addr / 0x100_0000;
    if width == 2 {
      assert x == 2 * (addr / 2 - 0x80_0000 * q);
    } else {
      assert x == 4 * (addr / 4 - 0x40_0000 * q);
    }
  }

  /** What the window makes of the operation: the flat one where the access fits
      its window; elsewhere writes are lost and reads return ones. */
  function WindowOp(dev: Mem, a: RegArgs): (Mem, RegArgs) {
    var width := WidthOf(a.flag);
    assert Pow256(2) == 0x1_0000 && Pow256(4) == 0x1_0000_0000;
    if Fits(a.addr, width) then FlatOp(dev, a)
    else if a.flag == 2 || a.flag == 4 then (dev, a.(data := Pow256(width) - 1))
    else (dev, a)
  }

  /** What each flag does, on accesses that fit: a 32-bit write changes four bytes,
      a 16-bit one two, low byte first; a read returns them and changes none;
      any other flag does nothing. */
  lemma FlagEffects(dev: Mem, a: RegArgs, x: nat)
    ensures var (dev', out) := FlatOp(dev, a);
      && dev'(x) == (if a.flag == 1 && a.addr <= x < a.addr + 4 then ByteOf(a.data, x - a.addr)
                     else if a.flag == 3 && a.addr <= x < a.addr + 2 then ByteOf(a.data, x - a.addr)
                     else dev(x))
      && out == (if a.flag == 2 then
                   a.(data := dev(a.addr) as int + 0x100 * dev(a.addr + 1) as int + 0x1_0000 * dev(a.addr + 2) as int
                              + 0x100_0000 * dev(a.addr + 3) as int)
                 else if a.flag == 4 then a.(data := dev(a.addr) as int + 0x100 * dev(a.addr + 1) as int)
                 else a)
  {
    FourBytes(a.data, 0);
    TwoBytes(a.data, 0);
    assert a.data / 0x100_0000 % 0x100 == a.data / 0x100_0000;
    assert ToBytes(a.data, 4) == [a.data % 0x100, a.data / 0x100 % 0x100, a.data / 0x1_0000 % 0x100, a.data / 0x100_0000 % 0x100];
    assert ToBytes(a.data, 2) == [a.data % 0x100, a.data / 0x100 % 0x100];
    if a.flag == 2 {
      FromFour(Read(dev, a.addr, 4));
    } else if a.flag == 4 {
      FromTwo(Read(dev, a.addr, 2));
    }
  }

  /** Byte `k` of a 32-bit value. */
  function ByteOf(v: u32, k: nat): byte {
    if k == 0 then v % 0x100 else if k == 1 then v / 0x100 % 0x100 else if k == 2 then v / 0x1_0000 % 0x100 else v / 0x100_0000 % 0x100
  }

  lemma FromTwo(s: seq<byte>)
    requires |s| == 2
    ensures FromBytes(s) == s[0] as int + 0x100 * s[1] as int
  {
    assert s[1..][1..] == [];
  }

  lemma FromFour(s: seq<byte>)
    requires |s| == 4
    ensures FromBytes(s) == s[0] as int + 0x100 * s[1] as int + 0x1_0000 * s[2] as int + 0x100_0000 * s[3] as int
  {
    assert s[1..][1..] == s[2..];
    FromTwo(s[2..]);
  }

  /** Through a window set for `base`, an access at `addr` reaches the flat
      address exactly when it fits, and nothing otherwise. */
  lemma WindowTranslates(rf: RegFile, base: u64, addr: u64, width: nat)
    requires WindowOk(rf, base) && base > 0 && base == addr - addr % 0x100_0000
    ensures Translate(rf, 2, addr % 0x100_0000, width) == if Fits(addr, width) then Some(addr as nat) else None
  {
    RegionMatches(RegionOf(rf, Inbound, 0), 4, 2);
    RegionMatches(RegionOf(rf, Inbound, 1), 2, 2);
    assert Catching(rf, 2, 0) == Catching(rf, 2, 1) == Some(Region1(base));
  }

  /** The access the driver makes through BAR 2 does the window's operation. */
  lemma WindowRefines(rf: RegFile, base: u64, dev: Mem, a: RegArgs)
    requires WindowOk(rf, base) && base > 0 && base == a.addr - a.addr % 0x100_0000
    ensures var off := a.addr % 0x100_0000; var width := WidthOf(a.flag);
      && (a.flag == 1 || a.flag == 3 ==> WindowOp(dev, a) == (BarWrite(rf, dev, off, width, a.data), a))
      && BarRead(rf, dev, off, width) < 0x1_0000_0000
      && (a.flag == 2 || a.flag == 4 ==> WindowOp(dev, a) == (dev, a.(data := BarRead(rf, dev, off, width))))
  {
    assert Pow256(2) == 0x1_0000 && Pow256(4) == 0x1_0000_0000;
    WindowTranslates(rf, base, a.addr, WidthOf(a.flag));
  }

  /** The window is the flat register file exactly where accesses fit: outside,
      some memory and value tell them apart. */
  lemma FlatExactlyWhereFits(a: RegArgs)
    requires 1 <= a.flag <= 4
    ensures (forall dev: Mem :: WindowOp(dev, a) == FlatOp(dev, a)) <==> Fits(a.addr, WidthOf(a.flag))
  {
    if !Fits(a.addr, WidthOf(a.flag)) {
      var width := WidthOf(a.flag);
      var low: byte := if a.data % 0x100 == 0 then 1 else 0;
      var dev: Mem := (x: nat) => low;
      assert Pow256(2) == 0x1_0000 && Pow256(4) == 0x1_0000_0000;
      if a.flag == 1 || a.flag == 3 {
        assert FlatOp(dev, a).0(a.addr) == ToBytes(a.data, width)[0] == a.data % 0x100;
        assert WindowOp(dev, a).0(a.addr) == low;
      } else {
        assert Read(dev, a.addr, width)[0] == low;
        var flat := FlatRead(dev, a.addr, width);
        assert flat % 0x100 == low;
        assert FlatOp(dev, a).1.data == flat != WindowOp(dev, a).1.data;
      }
      assert WindowOp(dev, a) != FlatOp(dev, a);
    }
  }
}
