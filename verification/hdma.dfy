/** eon_hdma_inbound and eon_hdma_outbound, end to end, under every answer the
    kernel and the waits may give. */
module Hdma {
  import opened Common
  import opened Words
  import opened Memory
  import opened Descriptor
  import opened Engine
  import opened Registers
  import opened Channel
  import opened Scatter
  import opened Pipeline
  import opened Window
  import opened Device
  import opened Setup
  import opened Transfer
  import ListBuilder

  /** Everything outside the driver's control in one transfer. `bus` is the list
      buffer's bus address and `garbage` what kmalloc left in it. */
  datatype Outcomes = Outcomes(sg: SgOutcome, bufferOk: bool, bufferMapOk: bool, bus: u64, garbage: seq<byte>,
                               first: Wait, second: Wait)

  ghost predicate Honest(o: Outcomes, addr: u64, len: u64) {
    && HonestPin(o.sg.pin, addr, len)
    && |o.garbage| == 24 * (PagesNr(addr, len) + 1)
  }

  /** Builds the list in a fresh buffer and lets the device see it at `o.bus`. */
  method SetHdmaDesc(d: EonDevice, dir: Direction, base: u64, sgl: seq<Sg>, ptr: u64, o: Outcomes)
    returns (ret: int, image: seq<byte>)
    requires |o.garbage| == 24 * (|sgl| + 1) && Prefix(sgl, |sgl|) < 0x1_0000_0000_0000_0000
    modifies d`held, d`host
    ensures ret == if o.bufferOk && o.bufferMapOk then 0 else -1
    ensures ret == 0 ==> ListBuilder.Written(image, o.garbage, JobsOf(dir, base, sgl), ptr) && IsImage(image, JobsOf(dir, base, sgl), ptr)
    ensures ret == 0 ==> d.host == Store(old(d.host), o.bus, image)
    ensures ret != 0 ==> d.host == old(d.host)
    ensures forall r :: d.held(r) == old(d.held)(r) + if ret == 0 && (r == DescBuffer || r == DescMapping) then 1 else 0
  {
    image := [];
    if !o.bufferOk {
      return -1, image;
    }
    d.Take(DescBuffer);
    if !o.bufferMapOk {
      d.Give(DescBuffer);
      return -1, image;
    }
    d.Take(DescMapping);
    var buf := new byte[|o.garbage|](i requires 0 <= i < |o.garbage| => o.garbage[i]);
    assert buf[..] == o.garbage;
    ListBuilder.BuildList(buf, dir, base, sgl, ptr);
    image := buf[..];
    d.host := Store(d.host, o.bus, image);
    return 0, image;
  }

  method TeardownDmaDesc(d: EonDevice)
    modifies d`held
    ensures forall r :: d.held(r) == old(d.held)(r) - if r == DescBuffer || r == DescMapping then 1 else 0
  {
    d.Give(DescMapping);
    d.Give(DescBuffer);
  }

  /** What a transfer answers once the list is built, before outbound's error
      paths replace it. */
  function RunRet(o: Outcomes, b: RegInfos): int
    requires |b.data| == 16
  {
    if o.first.ends == TimedOut then -1
    else if Considered(b) && LegalPrefix(b.data, b.num) < b.num then -1
    else WaitRet(o.second.ends)
  }

  /** Every allocation and mapping was granted, so that the list was built. */
  ghost predicate Built(o: Outcomes, addr: u64, len: u64) {
    && o.sg.pin.blocksOk && o.sg.pin.arrayOk && !(0 <= o.sg.pin.pinned < PagesNr(addr, len))
    && o.sg.headerOk && o.sg.entriesOk && o.sg.mapOk
    && o.bufferOk && o.bufferMapOk
  }

  /** The transfer gets to its data phase with the list in place. */
  ghost predicate ListSent(o: Outcomes, addr: u64, len: u64) {
    Built(o, addr, len) && o.sg.pin.pinned >= 0 && o.first.ends != TimedOut && o.first.steps > 0
  }

  /** Host pages, device target, list area and kernel buffer are where the driver
      expects them: in the address space, list and buffer apart from the data. */
  ghost predicate Placed(o: Outcomes, base: u64, addr: u64, len: u64, ptr: u64) {
    var n := 24 * (|o.sg.pin.pages| + 1);
    && 0 < len < 0x1_0000_0000
    && (forall i | 0 <= i < |o.sg.pin.pages| :: o.sg.pin.pages[i] < 0x10_0000_0000_0000)
    && base + len <= 0x1_0000_0000_0000_0000
    && ptr + n <= 0x1_0000_0000_0000_0000 && o.bus + n <= 0x1_0000_0000_0000_0000
    && Disjoint(base, len, ptr, n)
  }

  /** Whether the data phase starts the engine. */
  ghost predicate Rings(o: Outcomes, enable: u32, b: RegInfos)
    requires |b.data| == 16
  {
    o.first.ends != TimedOut && enable == 1 && !(Considered(b) && LegalPrefix(b.data, b.num) < b.num)
  }

  /** How many writes of the batch are applied. */
  ghost function Applied(o: Outcomes, b: RegInfos): (k: nat)
    requires |b.data| == 16
    ensures k <= 15
  {
    if o.first.ends != TimedOut && Considered(b) then LegalPrefix(b.data, b.num) else 0
  }

  /** A byte that some applied write of the batch reaches. */
  ghost predicate BatchByte(o: Outcomes, b: RegInfos, a: nat)
    requires |b.data| == 16
  {
    exists i :: 0 <= i < Applied(o, b) && Reaches(b.data[i].0, a)
  }

  /** Memories once the first phase has carried what it had time for, and the batch
      has been applied. */
  ghost function Prepared(strict: bool, w: World, size: u32, ptr: u64, b: RegInfos, o: Outcomes): World
    requires |b.data| == 16
  {
    var w1 := Exec(RdCh, strict, Plain(Job(o.bus, ptr, size)), w, o.first.steps).0;
    World(w1.host, Batch(w1.dev, b.data, Applied(o, b)))
  }

  /** Memories after the two phases. */
  ghost function AfterPhases(dir: Direction, strict: bool, w: World, size: u32, ptr: u64, enable: u32, b: RegInfos, o: Outcomes): World
    requires |b.data| == 16
  {
    var w2 := Prepared(strict, w, size, ptr, b, o);
    if Rings(o, enable, b) then Exec(dir, strict, Chain(ptr, 1), w2, o.second.steps).0 else w2
  }

  /** The list's channel has been started once and the data's once if `rings`, and
      neither has work left. */
  ghost predicate Started(us: Units, us': Units, desc: (Direction, nat), data: (Direction, nat), rings: bool) {
    forall c :: UnitOf(us', c) ==
      Unit(UnitOf(us, c).rings + (if c == desc then 1 else 0) + (if rings && c == data then 1 else 0), None)
  }

  /** The registers after the phases: each channel used reads as its last phase set
      it, no other channel and no region but the window's has changed. */
  ghost predicate RegsAfter(rf: RegFile, rf': RegFile, desc: (Direction, nat), data: (Direction, nat), size: u32, ptr: u64,
                            o: Outcomes, rings: bool)
  {
    && OtherRegionsKept(rf, rf')
    && (forall d, m: nat, r | m < 16 && (d, m) != desc && (d, m) != data :: Reg(rf', d, m, r) == Reg(rf, d, m, r))
    && (o.first.ends == TimedOut || desc != data ==>
          SetForCopy(rf', BlockAt(desc.0, desc.1), size, o.bus, ptr) && rf'(BlockAt(desc.0, desc.1) + 0x4) == 1)
    && (o.first.ends != TimedOut ==>
          SetForWalk(rf', BlockAt(data.0, data.1), ptr) && (rings ==> rf'(BlockAt(data.0, data.1) + 0x4) == 1))
  }

  /** The state a channel is left in by its last wait. */
  function StateAfter(e: Ending): TransferState { if e == Woken then COMPLETED else RUNNING }

  function DataState(o: Outcomes, b: RegInfos): TransferState
    requires |b.data| == 16
  {
    if Considered(b) && LegalPrefix(b.data, b.num) < b.num then RUNNING else StateAfter(o.second.ends)
  }

  function ChannelOf(c: HdmaContext): (Direction, nat) { (c.dir, c.id) }

  /** Stores to one channel leave the others as they were. */
  lemma PhaseElsewhere(rf: RegFile, rf': RegFile, dir: Direction, n: nat, ws: Writes)
    requires n < 16 && SameRegs(rf', Program(rf, dir, n, ws))
    ensures forall d, m: nat, r | m < 16 && (d, m) != (dir, n) :: Reg(rf', d, m, r) == Reg(rf, d, m, r)
  {
    hide Program, RegionOf;
    ProgramFrame(rf, dir, n, ws);
  }

  lemma CopyStaysSet(rf: RegFile, rf': RegFile, dir: Direction, n: nat, size: u32, src: u64, dst: u64)
    requires forall r :: Reg(rf', dir, n, r) == Reg(rf, dir, n, r)
    requires SetForCopy(rf, BlockAt(dir, n), size, src, dst)
    ensures SetForCopy(rf', BlockAt(dir, n), size, src, dst)
    ensures rf'(BlockAt(dir, n) + 0x4) == rf(BlockAt(dir, n) + 0x4)
  {
    hide Reg, BlockAt;
    RegAt(rf, dir, n);
    RegAt(rf', dir, n);
  }

  lemma StartedBoth(us0: Units, us1: Units, us2: Units, desc: (Direction, nat), data: (Direction, nat), rings: bool)
    requires Rung(us0, us1, desc, 1) && Rung(us1, us2, data, if rings then 1 else 0)
    ensures Started(us0, us2, desc, data, rings)
  {
    hide UnitOf;
    forall c ensures UnitOf(us2, c) ==
      Unit(UnitOf(us0, c).rings + (if c == desc then 1 else 0) + (if rings && c == data then 1 else 0), None)
    {
      assert UnitOf(us1, c).rings == UnitOf(us0, c).rings + if c == desc then 1 else 0;
    }
  }

  lemma StartedOnce(us0: Units, us1: Units, desc: (Direction, nat), data: (Direction, nat))
    requires Rung(us0, us1, desc, 1)
    ensures Started(us0, us1, desc, data, false)
  {
    hide UnitOf;
  }

  /** The two phases under the channel locks: `desc` carries the list of `size`
      bytes, `data` walks it. */
  method RunPhases(desc: HdmaContext, data: HdmaContext, size: u64, ptr: u64, enable: u32, b: RegInfos, o: Outcomes)
    returns (ret: int)
    requires desc.dpu == data.dpu && desc.dir == RdCh && desc.id < 16 && data.id < 16
    requires (desc == data || data.dir == WrCh) && data.dpu.Ready() && WellFormed(b)
    modifies desc, data, data.dpu`bar0, data.dpu`units, data.dpu`configBarBase, data.dpu`host, data.dpu`dev
    ensures data.dpu.Ready()
    ensures ret == RunRet(o, b)
    ensures Started(old(data.dpu.units), data.dpu.units, ChannelOf(desc), ChannelOf(data), Rings(o, enable, b))
    ensures RegsAfter(old(data.dpu.bar0), data.dpu.bar0, ChannelOf(desc), ChannelOf(data), size % 0x1_0000_0000, ptr, o,
                      Rings(o, enable, b))
    ensures data.dpu.configBarBase == BaseAfter(old(data.dpu.configBarBase), b.data, Applied(o, b))
    ensures data.state == if o.first.ends != TimedOut then DataState(o, b) else if desc == data then RUNNING else old(data.state)
    ensures desc != data ==> desc.state == StateAfter(o.first.ends)
    ensures World(data.dpu.host, data.dpu.dev)
         == AfterPhases(data.dir, data.dpu.strict, old(World(data.dpu.host, data.dpu.dev)), size % 0x1_0000_0000, ptr, enable, b, o)
  {
    hide Program, DescPhase, ChainPhase, RegionOf, ConfigOf, LegalPrefix, Steps, SameRegs, SetForCopy, SetForWalk;
    hide BlockAt, Rung, Started, UnitOf, Reg, NoneStarted, WindowOk;
    ghost var rf, us := data.dpu.bar0, data.dpu.units;
    ret := desc.TranferDesc(size, o.bus, ptr, o.first);
    ghost var rf1, us1 := data.dpu.bar0, data.dpu.units;
    SameAsSelf(rf1);
    PhaseElsewhere(rf, rf1, desc.dir, desc.id, DescPhase(size % 0x1_0000_0000, o.bus, ptr) + BELL);
    ProgramFrame(rf, desc.dir, desc.id, DescPhase(size % 0x1_0000_0000, o.bus, ptr) + BELL);
    StartedOnce(us, us1, ChannelOf(desc), ChannelOf(data));
    if ret != 0 {
      return ret;
    }
    ret := data.DmaLlmodeTransmit(ptr, enable, b, o.second);
    PhaseElsewhere(rf1, data.dpu.bar0, data.dir, data.id, ChainPhase(ptr) + if Rings(o, enable, b) then BELL else []);
    StartedBoth(us, us1, data.dpu.units, ChannelOf(desc), ChannelOf(data), Rings(o, enable, b));
    if desc != data {
      CopyStaysSet(rf1, data.dpu.bar0, desc.dir, desc.id, size % 0x1_0000_0000, o.bus, ptr);
    }
  }

  lemma SameAsSelf(rf: RegFile)
    ensures SameRegs(rf, rf)
  {
  }
  ghost predicate GoodImage(image: seq<byte>, dir: Direction, base: u64, addr: u64, len: u64, ptr: u64, o: Outcomes) {
    var jobs := JobsOf(dir, base, Table(addr, len, o.sg.pin.pages));
    |image| == 24 * (PagesNr(addr, len) + 1) && ListBuilder.Written(image, o.garbage, jobs, ptr) && IsImage(image, jobs, ptr)
  }

  /** What a transfer makes of registers, engines, window and channel states, given
      as they were before and are after. */
  ghost predicate Driven(rf: RegFile, rf': RegFile, us: Units, us': Units, base: u64, base': u64,
                         desc: (Direction, nat), data: (Direction, nat), image: seq<byte>, ptr: u64, enable: u32,
                         b: RegInfos, o: Outcomes, built: bool)
    requires |b.data| == 16
  {
    if built then
      && RegsAfter(rf, rf', desc, data, |image| % 0x1_0000_0000, ptr, o, Rings(o, enable, b))
      && Started(us, us', desc, data, Rings(o, enable, b))
      && base' == BaseAfter(base, b.data, Applied(o, b))
    else rf' == rf && us' == us && base' == base
  }

  /** The statements the two transfers share, around the phases. `image` is the
      list that was built. */
  method MoveBuffer(desc: HdmaContext, data: HdmaContext, base: u64, addr: u64, len: u64, ptr: u64, enable: u32,
                    b: RegInfos, o: Outcomes) returns (setup: int, ret: int, ghost image: seq<byte>)
    requires desc.dpu == data.dpu && desc.dir == RdCh && desc.id < 16 && data.id < 16
    requires (desc == data || data.dir == WrCh) && data.dpu.Ready() && WellFormed(b) && Honest(o, addr, len)
    modifies desc, data, data.dpu
    ensures data.dpu.Ready()
    ensures setup == SetupRet(o.sg, PagesNr(addr, len))
    ensures ret == if setup != 0 then setup else if !(o.bufferOk && o.bufferMapOk) then -1 else RunRet(o, b)
    ensures forall r :: data.dpu.held(r) == old(data.dpu.held)(r) - Stray(o.sg.pin, r)
              + if r == SgMapping && setup == 0 then 1 else 0
    ensures Built(o, addr, len) ==> GoodImage(image, data.dir, base, addr, len, ptr, o)
    ensures Driven(old(data.dpu.bar0), data.dpu.bar0, old(data.dpu.units), data.dpu.units, old(data.dpu.configBarBase),
                   data.dpu.configBarBase, ChannelOf(desc), ChannelOf(data), image, ptr, enable, b, o, Built(o, addr, len))
    ensures data.state == if !Built(o, addr, len) then old(data.state) else if o.first.ends != TimedOut then DataState(o, b)
                          else if desc == data then RUNNING else old(data.state)
    ensures desc != data ==> desc.state == if Built(o, addr, len) then StateAfter(o.first.ends) else old(desc.state)
    ensures World(data.dpu.host, data.dpu.dev) ==
      var w := old(World(data.dpu.host, data.dpu.dev));
      if Built(o, addr, len) then
        AfterPhases(data.dir, data.dpu.strict, w.(host := Store(w.host, o.bus, image)), |image| % 0x1_0000_0000, ptr, enable, b, o)
      else w
  {
    hide Table, IsImage, JobsOf, LegalPrefix, Batch, Touched, WindowOk, PagesNr, Count, RunRet, AfterPhases, Store;
    hide RegsAfter, Started, NoneStarted, BaseAfter, Applied, Rings, ListBuilder.Written, DataState;
    var d := data.dpu;
    var sgl, blocks, list;
    setup, sgl, blocks := DpuSetupSg(d, addr, len, o.sg);
    if setup != 0 {
      return setup, setup, [];
    }
    TableShape(addr, len, blocks);
    ret, list := SetHdmaDesc(d, data.dir, base, sgl, ptr, o);
    if ret != 0 {
      DpuTeardownSg(d, blocks);
      return setup, ret, list;
    }
    ImageSize(list, data.dir, base, sgl, ptr);
    ret := RunPhases(desc, data, 24 * (|sgl| + 1), ptr, enable, b, o);
    TeardownDmaDesc(d);
    DpuTeardownSg(d, blocks);
    return setup, ret, list;
  }

  /** The list was sent, the engine was started on it, and everything lies where the
      driver expects it, with the batch clear of the list. */
  ghost predicate Launched(o: Outcomes, base: u64, addr: u64, len: u64, ptr: u64, enable: u32, b: RegInfos)
    requires |b.data| == 16
  {
    && ListSent(o, addr, len) && Placed(o, base, addr, len, ptr) && Rings(o, enable, b)
    && forall a: nat | ptr <= a < ptr + ListBytes(o) :: !BatchByte(o, b, a)
  }

  /** Bytes of the elements the engine has finished. */
  function Done(o: Outcomes, addr: u64, len: u64): nat {
    var pages := o.sg.pin.pages;
    Prefix(Table(addr, len, pages), Min(o.second.steps, |pages|))
  }

  /** The engine was given a step for every element. */
  predicate Finished(o: Outcomes) { |o.sg.pin.pages| <= o.second.steps }

  /** Memories when the data phase starts no engine: the kernel buffer holds the
      list, the list area does if the first phase had time for it, and the batch
      has been applied; every other byte is as it was. */
  ghost predicate Unlaunched(w: World, w': World, image: seq<byte>, ptr: u64, b: RegInfos, o: Outcomes)
    requires |b.data| == 16
  {
    && (forall h: nat :: w'.host(h) == if o.bus <= h < o.bus + |image| then image[h - o.bus] else w.host(h))
    && (forall a: nat | !(ptr <= a < ptr + |image|) :: w'.dev(a) == Batch(w.dev, b.data, Applied(o, b))(a))
    && (|image| < 0x1_0000_0000 ==> forall a: nat | ptr <= a < ptr + |image| ::
          w'.dev(a) == if o.first.steps > 0 && !BatchByte(o, b, a) then image[a - ptr] else Batch(w.dev, b.data, Applied(o, b))(a))
  }

  /** eon_hdma_inbound. Whatever happens, resources balance but for the scatter
      mapping and stray pages. Unless every allocation was granted, nothing else
      changes at all. Every byte of both memories is known whenever the data
      phase starts no engine, and whenever it does on a list that was sent: the
      target then holds the finished part of the user buffer, which is all of it
      exactly when the engine had a step for each element, even when the second
      wait times out or is interrupted; list area and kernel buffer hold the list
      `image`, and the batch has been applied. */
  method EonHdmaInbound(ctx: HdmaContext, hostSrc: u64, deviceDes: u64, len: u64, ptr: u64, enable: u32,
                        b: RegInfos, o: Outcomes) returns (ret: int, ghost image: seq<byte>)
    requires ctx.dir == RdCh && ctx.id < 16 && ctx.dpu.Ready()
    requires WellFormed(b) && Honest(o, hostSrc, len)
    modifies ctx, ctx.dpu
    ensures ctx.dpu.Ready()
    ensures ret == if SetupRet(o.sg, PagesNr(hostSrc, len)) != 0 then SetupRet(o.sg, PagesNr(hostSrc, len))
                   else if !(o.bufferOk && o.bufferMapOk) then -1 else RunRet(o, b)
    ensures forall r :: ctx.dpu.held(r) == old(ctx.dpu.held)(r) - Stray(o.sg.pin, r)
              + if r == SgMapping && SetupRet(o.sg, PagesNr(hostSrc, len)) == 0 then 1 else 0
    ensures Driven(old(ctx.dpu.bar0), ctx.dpu.bar0, old(ctx.dpu.units), ctx.dpu.units, old(ctx.dpu.configBarBase),
                   ctx.dpu.configBarBase, ChannelOf(ctx), ChannelOf(ctx), image, ptr, enable, b, o, Built(o, hostSrc, len))
    ensures ctx.state == if !Built(o, hostSrc, len) then old(ctx.state)
                         else if o.first.ends == TimedOut then RUNNING else DataState(o, b)
    ensures Built(o, hostSrc, len) ==> GoodImage(image, RdCh, deviceDes, hostSrc, len, ptr, o)
    ensures !Built(o, hostSrc, len) ==> ctx.dpu.host == old(ctx.dpu.host) && ctx.dpu.dev == old(ctx.dpu.dev)
    ensures Built(o, hostSrc, len) && !Rings(o, enable, b) ==>
      Unlaunched(old(World(ctx.dpu.host, ctx.dpu.dev)), World(ctx.dpu.host, ctx.dpu.dev), image, ptr, b, o)
    ensures Launched(o, deviceDes, hostSrc, len, ptr, enable, b)
              && BufferApart(hostSrc, len, o.sg.pin.pages, o.bus, ListBytes(o)) ==>
      var n := Done(o, hostSrc, len);
      && |image| == ListBytes(o) && (n == len <==> Finished(o))
      && (forall a: nat :: ctx.dpu.dev(a) ==
            if deviceDes <= a < deviceDes + n then old(ctx.dpu.host)(Phys(hostSrc, o.sg.pin.pages, a - deviceDes))
            else if ptr <= a < ptr + |image| then image[a - ptr]
            else Batch(old(ctx.dpu.dev), b.data, Applied(o, b))(a))
      && (forall h: nat :: ctx.dpu.host(h) == if o.bus <= h < o.bus + |image| then image[h - o.bus] else old(ctx.dpu.host)(h))
  {
    hide Table, IsImage, JobsOf, Touched, Phys, PagesNr, RunRet, WindowOk, BufferApart, Placed, ListSent, Batch, Applied;
    hide AfterPhases, Rings, GoodImage, Unlaunched, Built, Driven, DataState, NoneStarted;
    var setup;
    ghost var w := World(ctx.dpu.host, ctx.dpu.dev);
    setup, ret, image := MoveBuffer(ctx, ctx, deviceDes, hostSrc, len, ptr, enable, b, o);
    if Launched(o, deviceDes, hostSrc, len, ptr, enable, b)
       && BufferApart(hostSrc, len, o.sg.pin.pages, o.bus, ListBytes(o)) {
      InboundRan(w, ctx.dpu.strict, deviceDes, hostSrc, len, ptr, o, image, enable, b);
    }
    if Built(o, hostSrc, len) && !Rings(o, enable, b) {
      StaysUnlaunched(RdCh, w, ctx.dpu.strict, image, ptr, enable, b, o);
    }
  }

  /** eon_hdma_outbound: `ctx` writes the data, `ctxDesc` reads the list. A late
      failure is answered with 0, as success is. The rest mirrors inbound: once
      launched, the finished part of the user buffer holds the device's bytes as
      the batch left them, all of it exactly when the engine had a step for each
      element; no other host byte changes but the kernel buffer's, and no device
      byte but the list area's and the batch's. */
  method EonHdmaOutbound(ctx: HdmaContext, ctxDesc: HdmaContext, hostDes: u64, deviceSrc: u64, len: u64, ptr: u64,
                         enable: u32, b: RegInfos, o: Outcomes) returns (ret: int, ghost image: seq<byte>)
    requires ctx.dir == WrCh && ctxDesc.dir == RdCh && ctx.id < 16 && ctxDesc.id < 16 && ctxDesc.dpu == ctx.dpu
    requires ctx.dpu.Ready() && WellFormed(b) && Honest(o, hostDes, len)
    modifies ctx, ctxDesc, ctx.dpu
    ensures ctx.dpu.Ready()
    ensures ret == SetupRet(o.sg, PagesNr(hostDes, len))
    ensures forall r :: ctx.dpu.held(r) == old(ctx.dpu.held)(r) - Stray(o.sg.pin, r)
              + if r == SgMapping && SetupRet(o.sg, PagesNr(hostDes, len)) == 0 then 1 else 0
    ensures Driven(old(ctx.dpu.bar0), ctx.dpu.bar0, old(ctx.dpu.units), ctx.dpu.units, old(ctx.dpu.configBarBase),
                   ctx.dpu.configBarBase, ChannelOf(ctxDesc), ChannelOf(ctx), image, ptr, enable, b, o, Built(o, hostDes, len))
    ensures ctx.state == if Built(o, hostDes, len) && o.first.ends != TimedOut then DataState(o, b) else old(ctx.state)
    ensures ctxDesc.state == if Built(o, hostDes, len) then StateAfter(o.first.ends) else old(ctxDesc.state)
    ensures Built(o, hostDes, len) ==> GoodImage(image, WrCh, deviceSrc, hostDes, len, ptr, o)
    ensures !Built(o, hostDes, len) ==> ctx.dpu.host == old(ctx.dpu.host) && ctx.dpu.dev == old(ctx.dpu.dev)
    ensures Built(o, hostDes, len) && !Rings(o, enable, b) ==>
      Unlaunched(old(World(ctx.dpu.host, ctx.dpu.dev)), World(ctx.dpu.host, ctx.dpu.dev), image, ptr, b, o)
    ensures Launched(o, deviceSrc, hostDes, len, ptr, enable, b) && DistinctPages(o.sg.pin.pages) ==>
      var n := Done(o, hostDes, len);
      var before := Batch(old(ctx.dpu.dev), b.data, Applied(o, b));
      && |image| == ListBytes(o) && (n == len <==> Finished(o))
      && (forall x: nat | x < n :: ctx.dpu.host(Phys(hostDes, o.sg.pin.pages, x)) == before(deviceSrc + x))
      && (forall h: nat | (forall x: nat | x < n :: Phys(hostDes, o.sg.pin.pages, x) != h) ::
            ctx.dpu.host(h) == if o.bus <= h < o.bus + |image| then image[h - o.bus] else old(ctx.dpu.host)(h))
      && (forall a: nat :: ctx.dpu.dev(a) == if ptr <= a < ptr + |image| then image[a - ptr] else before(a))
  {
    hide Table, IsImage, JobsOf, Touched, Phys, PagesNr, RunRet, WindowOk, DistinctPages, Placed, ListSent, Batch, Applied;
    hide AfterPhases, Rings, GoodImage, Unlaunched, Built, Driven, DataState, NoneStarted;
    var setup;
    ghost var w := World(ctx.dpu.host, ctx.dpu.dev);
    setup, ret, image := MoveBuffer(ctxDesc, ctx, deviceSrc, hostDes, len, ptr, enable, b, o);
    if setup == 0 && ret != 0 {
      ret := 0;
    }
    if Launched(o, deviceSrc, hostDes, len, ptr, enable, b) && DistinctPages(o.sg.pin.pages) {
      OutboundRan(w, ctx.dpu.strict, deviceSrc, hostDes, len, ptr, o, image, enable, b);
    }
    if Built(o, hostDes, len) && !Rings(o, enable, b) {
      StaysUnlaunched(WrCh, w, ctx.dpu.strict, image, ptr, enable, b, o);
    }
  }

  function ListBytes(o: Outcomes): nat { 24 * (|o.sg.pin.pages| + 1) }

  /** The device bytes the data phase starts from. */
  lemma PreparedBytes(strict: bool, w: World, image: seq<byte>, ptr: u64, b: RegInfos, o: Outcomes)
    requires |b.data| == 16
    ensures var w2 := Prepared(strict, w.(host := Store(w.host, o.bus, image)), |image| % 0x1_0000_0000, ptr, b, o);
      && (forall h: nat :: w2.host(h) == if o.bus <= h < o.bus + |image| then image[h - o.bus] else w.host(h))
      && (forall a: nat | !(ptr <= a < ptr + |image|) :: w2.dev(a) == Batch(w.dev, b.data, Applied(o, b))(a))
      && (|image| < 0x1_0000_0000 ==> forall a: nat | ptr <= a < ptr + |image| ::
            w2.dev(a) == if o.first.steps > 0 && !BatchByte(o, b, a) then image[a - ptr] else Batch(w.dev, b.data, Applied(o, b))(a))
  {
    hide Batch, Applied;
    var size := |image| % 0x1_0000_0000;
    var w1 := w.(host := Store(w.host, o.bus, image));
    var w2 := Exec(RdCh, strict, Plain(Job(o.bus, ptr, size)), w1, o.first.steps).0;
    forall a: nat
      ensures !(ptr <= a < ptr + |image|) ==>
        Batch(w2.dev, b.data, Applied(o, b))(a) == Batch(w.dev, b.data, Applied(o, b))(a)
      ensures |image| < 0x1_0000_0000 && ptr <= a < ptr + |image| ==>
        Batch(w2.dev, b.data, Applied(o, b))(a) ==
          if o.first.steps > 0 && !BatchByte(o, b, a) then image[a - ptr] else Batch(w.dev, b.data, Applied(o, b))(a)
    {
      BatchDecides(w2.dev, w.dev, b.data, Applied(o, b), a);
      if BatchByte(o, b, a) {
      }
    }
  }

  lemma StaysUnlaunched(dir: Direction, w: World, strict: bool, image: seq<byte>, ptr: u64, enable: u32, b: RegInfos, o: Outcomes)
    requires |b.data| == 16 && !Rings(o, enable, b)
    ensures Unlaunched(w, AfterPhases(dir, strict, w.(host := Store(w.host, o.bus, image)), |image| % 0x1_0000_0000, ptr, enable, b, o),
                       image, ptr, b, o)
  {
    hide Rings, Batch, Applied, Prepared, Store;
    PreparedBytes(strict, w, image, ptr, b, o);
  }

  lemma LaunchedShape(base: u64, addr: u64, len: u64, ptr: u64, o: Outcomes, enable: u32, b: RegInfos)
    requires |b.data| == 16 && Launched(o, base, addr, len, ptr, enable, b) && HonestPin(o.sg.pin, addr, len)
    ensures Pinned(addr, len, o.sg.pin.pages) && ListBytes(o) < 0x1_0000_0000
    ensures base + len <= 0x1_0000_0000_0000_0000 && Disjoint(base, len, ptr, ListBytes(o))
    ensures ptr + ListBytes(o) <= 0x1_0000_0000_0000_0000 && o.bus + ListBytes(o) <= 0x1_0000_0000_0000_0000
    ensures Built(o, addr, len) && Rings(o, enable, b) && o.first.steps > 0
    ensures forall a: nat | ptr <= a < ptr + ListBytes(o) :: !BatchByte(o, b, a)
    ensures ListBytes(o) == 24 * (PagesNr(addr, len) + 1)
  {
    NarrowingLossless(addr, len, o.sg.pin.pages);
  }

  /** Once launched, the list is in place when the engine starts on it. */
  lemma LaunchedList(w: World, strict: bool, dir: Direction, base: u64, addr: u64, len: u64, ptr: u64, o: Outcomes,
                     image: seq<byte>, enable: u32, b: RegInfos)
    requires |b.data| == 16 && Launched(o, base, addr, len, ptr, enable, b) && HonestPin(o.sg.pin, addr, len)
    requires GoodImage(image, dir, base, addr, len, ptr, o)
    ensures |image| == ListBytes(o)
    ensures var w2 := Prepared(strict, w.(host := Store(w.host, o.bus, image)), |image| % 0x1_0000_0000, ptr, b, o);
      && ListAt(w2.dev, ptr, JobsOf(dir, base, Table(addr, len, o.sg.pin.pages)))
      && (forall h: nat :: w2.host(h) == if o.bus <= h < o.bus + |image| then image[h - o.bus] else w.host(h))
      && (forall a: nat :: w2.dev(a) ==
            if ptr <= a < ptr + |image| then image[a - ptr] else Batch(w.dev, b.data, Applied(o, b))(a))
  {
    hide Table, IsImage, JobsOf, ListAt, PagesNr, Pinned, Launched, Built, Rings, Applied, Batch, Prepared, Store, ListBuilder.Written;
    LaunchedShape(base, addr, len, ptr, o, enable, b);
    PreparedBytes(strict, w, image, ptr, b, o);
    var w2 := Prepared(strict, w.(host := Store(w.host, o.bus, image)), |image| % 0x1_0000_0000, ptr, b, o);
    forall k | 0 <= k < |image| ensures w2.dev(ptr + k) == image[k] {
    }
    ImageIsList(w2.dev, image, JobsOf(dir, base, Table(addr, len, o.sg.pin.pages)), ptr);
  }

  lemma InboundRan(w: World, strict: bool, base: u64, addr: u64, len: u64, ptr: u64, o: Outcomes, image: seq<byte>,
                   enable: u32, b: RegInfos)
    requires |b.data| == 16 && Launched(o, base, addr, len, ptr, enable, b) && HonestPin(o.sg.pin, addr, len)
    requires BufferApart(addr, len, o.sg.pin.pages, o.bus, ListBytes(o))
    requires Built(o, addr, len) ==> GoodImage(image, RdCh, base, addr, len, ptr, o)
    ensures Built(o, addr, len) && |image| == ListBytes(o)
    ensures var n := Done(o, addr, len);
      var w' := AfterPhases(RdCh, strict, w.(host := Store(w.host, o.bus, image)), |image| % 0x1_0000_0000, ptr, enable, b, o);
      && (n == len <==> Finished(o))
      && (forall a: nat :: w'.dev(a) ==
            if base <= a < base + n then w.host(Phys(addr, o.sg.pin.pages, a - base))
            else if ptr <= a < ptr + |image| then image[a - ptr]
            else Batch(w.dev, b.data, Applied(o, b))(a))
      && (forall h: nat :: w'.host(h) == if o.bus <= h < o.bus + |image| then image[h - o.bus] else w.host(h))
  {
    hide Table, IsImage, JobsOf, Touched, Phys, PagesNr, Pinned, Launched, Built, Rings, Applied, Batch, ListAt, Prepared;
    hide Steps, Store, GoodImage;
    LaunchedShape(base, addr, len, ptr, o, enable, b);
    LaunchedList(w, strict, RdCh, base, addr, len, ptr, o, image, enable, b);
    var pages := o.sg.pin.pages;
    var w2 := Prepared(strict, w.(host := Store(w.host, o.bus, image)), |image| % 0x1_0000_0000, ptr, b, o);
    InboundWalk(w2, strict, base, addr, len, pages, ptr, o.second.steps);
    EntriesWithin(addr, len, pages, Min(o.second.steps, |pages|));
    forall x: nat | x < len ensures w2.host(Phys(addr, pages, x)) == w.host(Phys(addr, pages, x)) {
    }
  }

  lemma OutboundRan(w: World, strict: bool, base: u64, addr: u64, len: u64, ptr: u64, o: Outcomes, image: seq<byte>,
                    enable: u32, b: RegInfos)
    requires |b.data| == 16 && Launched(o, base, addr, len, ptr, enable, b) && HonestPin(o.sg.pin, addr, len)
    requires DistinctPages(o.sg.pin.pages)
    requires Built(o, addr, len) ==> GoodImage(image, WrCh, base, addr, len, ptr, o)
    ensures Built(o, addr, len) && |image| == ListBytes(o)
    ensures var n := Done(o, addr, len); var before := Batch(w.dev, b.data, Applied(o, b));
      var w' := AfterPhases(WrCh, strict, w.(host := Store(w.host, o.bus, image)), |image| % 0x1_0000_0000, ptr, enable, b, o);
      && (n == len <==> Finished(o))
      && (forall x: nat | x < n :: w'.host(Phys(addr, o.sg.pin.pages, x)) == before(base + x))
      && (forall h: nat | (forall x: nat | x < n :: Phys(addr, o.sg.pin.pages, x) != h) ::
            w'.host(h) == if o.bus <= h < o.bus + |image| then image[h - o.bus] else w.host(h))
      && (forall a: nat :: w'.dev(a) == if ptr <= a < ptr + |image| then image[a - ptr] else before(a))
  {
    hide Table, IsImage, JobsOf, Touched, Phys, PagesNr, Pinned, Launched, Built, Rings, Applied, Batch, ListAt, Prepared;
    hide Steps, Store, GoodImage, DistinctPages;
    LaunchedShape(base, addr, len, ptr, o, enable, b);
    LaunchedList(w, strict, WrCh, base, addr, len, ptr, o, image, enable, b);
    var pages := o.sg.pin.pages;
    var w2 := Prepared(strict, w.(host := Store(w.host, o.bus, image)), |image| % 0x1_0000_0000, ptr, b, o);
    OutboundWalk(w2, strict, base, addr, len, pages, ptr, o.second.steps);
    EntriesWithin(addr, len, pages, Min(o.second.steps, |pages|));
  }

  lemma ImageSize(s: seq<byte>, dir: Direction, base: u64, t: seq<Sg>, ptr: u64)
    requires IsImage(s, JobsOf(dir, base, t), ptr)
    ensures |s| == 24 * (|t| + 1)
  {
  }

  lemma TableShape(addr: u64, len: u64, pages: seq<nat>)
    ensures Prefix(Table(addr, len, pages), |pages|) < 0x1_0000_0000
  {
    PrefixIsBefore(addr, len, pages, |pages|);
  }

  /** Without the list sent nothing bounds the data phase. A first wait that a
      signal ends before the copy returns 0, the data phase runs on whatever
      device memory holds at `ptr`, and any byte outside the list area may be hit. */
  lemma UnsentListRunsWild(strict: bool, host: Mem, ptr: u64, victim: u64) returns (w: World)
    requires !(ptr <= victim < ptr + 24)
    ensures w.host == host && WaitRet(Interrupted) == 0
    ensures forall job :: Exec(RdCh, strict, Plain(job), w, 0).0 == w
    ensures Exec(RdCh, strict, Chain(ptr, 1), w, 1).0.dev(victim) != w.dev(victim)
  {
    hide Decode, DataImage;
    var zeros: seq<byte> := seq(24, _ => 0);
    var e := DataImage(zeros, 0, victim, 1, 0, 0, 1);
    var other: byte := if host(0) == 0 then 1 else 0;
    w := World(host, Store((a: nat) => other, ptr, e));
    DecodeDataImage(zeros, 0, victim, 1, 0, 0, 1);
    assert Read(w.dev, ptr, 24) == e;
    var start := Run(w, Active(ptr, 1));
    assert Steps(RdCh, strict, start, 1) == Step(RdCh, strict, start);
  }

  /** The outbound twin: the walk on the write channel may hit any host byte. */
  lemma UnsentListHitsHost(strict: bool, host: Mem, ptr: u64, victim: u64) returns (w: World)
    ensures w.host == host && WaitRet(Interrupted) == 0
    ensures forall job :: Exec(RdCh, strict, Plain(job), w, 0).0 == w
    ensures Exec(WrCh, strict, Chain(ptr, 1), w, 1).0.host(victim) != w.host(victim)
  {
    hide Decode, DataImage;
    var zeros: seq<byte> := seq(24, _ => 0);
    var src: u64 := if ptr > 0 then 0 else 24;
    var e := DataImage(zeros, src, victim, 1, 0, 0, 1);
    var other: byte := if host(victim) == 0 then 1 else 0;
    w := World(host, Store((a: nat) => other, ptr, e));
    DecodeDataImage(zeros, src, victim, 1, 0, 0, 1);
    assert Read(w.dev, ptr, 24) == e;
    var start := Run(w, Active(ptr, 1));
    assert Steps(WrCh, strict, start, 1) == Step(WrCh, strict, start);
  }

  /** Pages released without having been pinned exist exactly when a negative pin
      result meets a page array that was not all null. */
  lemma StrayExactly(o: PinOutcome)
    ensures (forall r :: Stray(o, r) == 0) <==>
      !(o.blocksOk && o.arrayOk && o.pinned < 0 && exists i :: 0 <= i < |o.pages| && o.pages[i] != 0)
  {
    if o.blocksOk && o.arrayOk && o.pinned < 0 {
      if i :| 0 <= i < |o.pages| && o.pages[i] != 0 {
        CountPositive(o.pages, i);
        assert Stray(o, Pin(o.pages[i])) > 0;
      } else {
        forall r ensures Stray(o, r) == 0 {
          if r.Pin? {
            CountZero(o.pages, r.page);
          }
        }
      }
    }
  }

  lemma {:induction false} CountPositive(pages: seq<nat>, i: nat)
    requires i < |pages| && pages[i] != 0
    ensures Count(pages, pages[i]) > 0
  {
    if i < |pages| - 1 {
      CountPositive(pages[..|pages| - 1], i);
    }
  }

  lemma {:induction false} CountZero(pages: seq<nat>, p: nat)
    requires forall i | 0 <= i < |pages| :: pages[i] == 0
    ensures Count(pages, p) == 0
  {
    if pages != [] {
      CountZero(pages[..|pages| - 1], p);
    }
  }
}
