/** Pinning a user buffer and building its scatter table, with every failure the
    kernel may answer (dpu_get_pages to dpu_teardown_sg in test_dev.c). */
module Setup {
  import opened Words
  import opened Scatter
  import opened Device

  /** get_user_pages_fast's int result as the unsigned comparison sees it. */
  function AsUnsigned(v: int): nat
    requires -0x8000_0000 <= v < 0x8000_0000
  {
    if v < 0 then v + 0x1_0000_0000 else v
  }

  function Pinning(o: PinOutcome): nat { if o.pinned < 0 then 0 else o.pinned }

  /** put_page on the first `n` entries, skipping null ones. */
  method PutAll(d: EonDevice, pages: seq<nat>, n: nat)
    requires n <= |pages|
    modifies d`held
    ensures forall r :: d.held(r) == old(d.held)(r) - if r.Pin? then Count(pages[..n], r.page) else 0
  {
    for i := 0 to n
      invariant forall r :: d.held(r) == old(d.held)(r) - if r.Pin? then Count(pages[..i], r.page) else 0
    {
      assert pages[..i + 1][..i] == pages[..i];
      if pages[i] != 0 {
        d.Give(Pin(pages[i]));
      }
    }
  }

  /** The pins the kernel takes while answering. */
  method PinAll(d: EonDevice, pages: seq<nat>, n: nat)
    requires n <= |pages|
    modifies d`held
    ensures forall r :: d.held(r) == old(d.held)(r) + if r.Pin? then Count(pages[..n], r.page) else 0
  {
    for i := 0 to n
      invariant forall r :: d.held(r) == old(d.held)(r) + if r.Pin? then Count(pages[..i], r.page) else 0
    {
      assert pages[..i + 1][..i] == pages[..i];
      if pages[i] != 0 {
        d.Take(Pin(pages[i]));
      }
    }
  }

  /** On failure nothing is held; on success the block array and the pins are,
      except that a negative pin result succeeds without a single pin. */
  method DpuGetPages(d: EonDevice, buf: u64, len: u64, o: PinOutcome) returns (ret: int, blocks: seq<nat>)
    requires HonestPin(o, buf, len)
    modifies d`held
    ensures ret == if !o.blocksOk then -1 else if !o.arrayOk then -2
                   else if 0 <= o.pinned < PagesNr(buf, len) then -3 else 0
    ensures ret == 0 ==> blocks == o.pages
    ensures forall r :: d.held(r) == old(d.held)(r) + (if ret == 0 then BlocksHeld(blocks, r) else 0) - Stray(o, r)
  {
    blocks := [];
    var blocksNr := PagesNr(buf, len);
    if !o.blocksOk {
      return -1, [];
    }
    d.Take(Blocks);
    if !o.arrayOk {
      d.Give(Blocks);
      return -2, [];
    }
    d.Take(PageArray);
    PinAll(d, o.pages, Pinning(o));
    if AsUnsigned(o.pinned) < blocksNr {
      if o.pinned > 0 {
        PutAll(d, o.pages, o.pinned);
      }
      d.Give(PageArray);
      d.Give(Blocks);
      return -3, [];
    }
    for i := 0 to blocksNr
      invariant blocks == o.pages[..i]
    {
      blocks := blocks + [o.pages[i]];
    }
    d.Give(PageArray);
    assert o.pages[..|o.pages|] == o.pages;
    return 0, blocks;
  }

  method DpuPutPages(d: EonDevice, blocks: seq<nat>)
    modifies d`held
    ensures forall r :: d.held(r) == old(d.held)(r) - BlocksHeld(blocks, r)
  {
    PutAll(d, blocks, |blocks|);
    assert blocks[..|blocks|] == blocks;
    d.Give(Blocks);
  }

  datatype SgOutcome = SgOutcome(pin: PinOutcome, headerOk: bool, entriesOk: bool, mapOk: bool)

  /** dpu_setup_sg's return value, in the order the failures are met. */
  function SetupRet(o: SgOutcome, n: nat): int {
    if !o.pin.blocksOk then -1
    else if !o.pin.arrayOk then -2
    else if 0 <= o.pin.pinned < n then -3
    else if !o.headerOk then -1
    else if !o.entriesOk then -2
    else if !o.mapOk then -3
    else 0
  }

  /** What dpu_teardown_sg gives back. The mapping is not among it. */
  function TableHeld(blocks: seq<nat>, r: Resource): int {
    BlocksHeld(blocks, r) + if r == SgHeader || r == SgEntries then 1 else 0
  }

  method DpuSetupSg(d: EonDevice, hostAddr: u64, size: u64, o: SgOutcome)
    returns (ret: int, sgl: seq<Sg>, blocks: seq<nat>)
    requires HonestPin(o.pin, hostAddr, size)
    modifies d`held
    ensures ret == SetupRet(o, PagesNr(hostAddr, size))
    ensures !o.pin.blocksOk ==> ret == -1
    ensures o.pin.blocksOk && !o.pin.arrayOk ==> ret == -2
    ensures o.pin.blocksOk && o.pin.arrayOk && 0 <= o.pin.pinned < PagesNr(hostAddr, size) ==> ret == -3
    ensures o.pin.blocksOk && o.pin.arrayOk && !(0 <= o.pin.pinned < PagesNr(hostAddr, size)) ==>
      ret == if !o.headerOk then -1 else if !o.entriesOk then -2 else if !o.mapOk then -3 else 0
    ensures ret == 0 ==> blocks == o.pin.pages && sgl == Table(hostAddr, size, blocks)
    ensures forall r :: d.held(r) == old(d.held)(r) - Stray(o.pin, r)
              + if ret == 0 then TableHeld(o.pin.pages, r) + (if r == SgMapping then 1 else 0) else 0
  {
    sgl := [];
    ret, blocks := DpuGetPages(d, hostAddr, size, o.pin);
    if ret != 0 {
      return ret, sgl, blocks;
    }
    if !o.headerOk {
      DpuPutPages(d, blocks);
      return -1, sgl, blocks;
    }
    d.Take(SgHeader);
    if !o.entriesOk {
      d.Give(SgHeader);
      DpuPutPages(d, blocks);
      return -2, sgl, blocks;
    }
    d.Take(SgEntries);
    sgl := FillTable(hostAddr, size, blocks);
    if !o.mapOk {
      d.Give(SgEntries);
      d.Give(SgHeader);
      DpuPutPages(d, blocks);
      return -3, sgl, blocks;
    }
    d.Take(SgMapping);
    return 0, sgl, blocks;
  }

  method DpuTeardownSg(d: EonDevice, blocks: seq<nat>)
    modifies d`held
    ensures forall r :: d.held(r) == old(d.held)(r) - TableHeld(blocks, r)
  {
    d.Give(SgEntries);
    d.Give(SgHeader);
    DpuPutPages(d, blocks);
  }
}
