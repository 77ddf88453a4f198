/** What the descriptor list built from a scatter table makes the engine do,
    stated on memories: the pipeline means "copy len bytes". */
module Pipeline {
  import opened Common
  import opened Words
  import opened Memory
  import opened Descriptor
  import opened Engine
  import opened Scatter

  /** Job `i` of a transfer: the i-th scatter entry on the host side, the device
      base plus the length of the earlier entries on the other. */
  function JobOf(dir: Direction, base: u64, t: seq<Sg>, i: nat): Job
    requires i < |t|
  {
    var bus := (t[i].page * 4096 + t[i].offset) % 0x1_0000_0000_0000_0000;
    var soc := (base as int + Prefix(t, i)) % 0x1_0000_0000_0000_0000;
    var len := t[i].len % 0x1_0000_0000;
    match dir
    case RdCh => Job(bus, soc, len)
    case WrCh => Job(soc, bus, len)
  }

  function JobsOf(dir: Direction, base: u64, t: seq<Sg>): (jobs: seq<Job>)
    ensures |jobs| == |t|
  {
    seq(|t|, i requires 0 <= i < |t| => JobOf(dir, base, t, i))
  }

  /** `s` encodes `jobs`, closed by a link to `ptr`. */
  ghost predicate IsImage(s: seq<byte>, jobs: seq<Job>, ptr: u64) {
    && |s| == 24 * (|jobs| + 1)
    && (forall i | 0 <= i < |jobs| ::
          var last := if i == |jobs| - 1 then 1 else 0;
          Decode(s[24 * i..24 * i + 24]) == Data(1, last, last, jobs[i].src, jobs[i].dst, jobs[i].len))
    && Decode(s[24 * |jobs|..]) == Link(0, 1, ptr)
  }

  /** An image copied to device memory is a list the engine can walk. */
  lemma ImageIsList(dev: Mem, s: seq<byte>, jobs: seq<Job>, ptr: u64)
    requires IsImage(s, jobs, ptr)
    requires forall k | 0 <= k < |s| :: dev(ptr + k) == s[k]
    ensures ListAt(dev, ptr, jobs)
  {
    hide Decode;
    forall i | 0 <= i <= |jobs| ensures Read(dev, ptr + 24 * i, 24) == s[24 * i..24 * i + 24] {
      var here, there := Read(dev, ptr + 24 * i, 24), s[24 * i..24 * i + 24];
      forall k | 0 <= k < 24 ensures here[k] == there[k] {
        assert dev(ptr + (24 * i + k)) == s[24 * i + k];
      }
    }
    forall i | 0 <= i < |jobs|
      ensures var last := if i == |jobs| - 1 then 1 else 0;
        DecodeAt(dev, ptr + 24 * i) == Data(1, last, last, jobs[i].src, jobs[i].dst, jobs[i].len)
    {
      assert Read(dev, ptr + 24 * i, 24) == s[24 * i..24 * i + 24];
    }
    assert s[24 * |jobs|..24 * |jobs| + 24] == s[24 * |jobs|..];
  }

  /** The page of the user buffer that byte `x` of it lies in. */
  function PageOf(addr: nat, x: nat): nat { (addr + x) / 4096 - addr / 4096 }

  /** Where byte `x` of the user buffer lies, as the device addresses it. */
  function Phys(addr: nat, pages: seq<nat>, x: nat): nat {
    var page := PageOf(addr, x);
    if page < |pages| then pages[page] * 4096 + (addr + x) % 4096 else 0
  }

  /** What pinning and one-to-one mapping give: one device-visible page per
      touched page. */
  ghost predicate Pinned(addr: nat, len: nat, pages: seq<nat>) {
    && 0 < len < 0x1_0000_0000
    && |pages| == Touched(addr, len)
    && forall i | 0 <= i < |pages| :: pages[i] < 0x10_0000_0000_0000
  }

  /** Every byte of entry `i` lies where the entry says. */
  lemma EntryBytes(addr: u64, len: nat, pages: seq<nat>, i: nat)
    requires Pinned(addr, len, pages) && i < |pages|
    ensures var t := Table(addr, len, pages);
      forall x | Prefix(t, i) <= x < Prefix(t, i + 1) ::
        && PageOf(addr, x) == i
        && Phys(addr, pages, x) == t[i].page * 4096 + t[i].offset + (x - Prefix(t, i))
  {
    hide Table, Touched;
    var t := Table(addr, len, pages);
    EntryInPage(addr, len, pages, i);
    forall x | Prefix(t, i) <= x < Prefix(t, i + 1)
      ensures PageOf(addr, x) == i
      ensures Phys(addr, pages, x) == t[i].page * 4096 + t[i].offset + (x - Prefix(t, i))
    {
      ByteInEntry(addr, len, pages, i, x);
    }
  }

  /** A job's addresses and length lose nothing to the narrowing. */
  lemma JobExact(dir: Direction, base: u64, addr: u64, len: nat, pages: seq<nat>, i: nat)
    requires Pinned(addr, len, pages) && base + len <= 0x1_0000_0000_0000_0000 && i < |pages|
    ensures var t := Table(addr, len, pages); var j := JobOf(dir, base, t, i);
      && Prefix(t, i) + j.len == Prefix(t, i + 1) <= len
      && (if dir == RdCh then j.dst else j.src) == base + Prefix(t, i)
      && (if dir == RdCh then j.src else j.dst) == t[i].page * 4096 + t[i].offset
  {
    hide Table, Touched;
    EntryInPage(addr, len, pages, i);
    var t := Table(addr, len, pages);
    assert t[i].page * 4096 + t[i].offset < 0x1_0000_0000_0000_0000;
  }

  /** The host side of job `i` is exactly the buffer bytes it stands for. */
  lemma JobBytes(dir: Direction, base: u64, addr: u64, len: nat, pages: seq<nat>, i: nat)
    requires Pinned(addr, len, pages) && base + len <= 0x1_0000_0000_0000_0000 && i < |pages|
    ensures var t := Table(addr, len, pages); var j := JobOf(dir, base, t, i);
      && Prefix(t, i) + j.len == Prefix(t, i + 1) <= len
      && (if dir == RdCh then j.dst else j.src) == base + Prefix(t, i)
      && (forall x | Prefix(t, i) <= x < Prefix(t, i + 1) ::
            && PageOf(addr, x) == i
            && Phys(addr, pages, x) == (if dir == RdCh then j.src else j.dst) + (x - Prefix(t, i)))
  {
    hide Table, Touched, Phys, PageOf, JobOf, Prefix;
    JobExact(dir, base, addr, len, pages, i);
    EntryBytes(addr, len, pages, i);
  }

  /** After `k` elements of an inbound list the first Prefix(t, k) bytes of the
      target hold the user buffer's, and nothing else has changed. */
  lemma {:induction false} InboundCopies(w: World, base: u64, addr: u64, len: nat, pages: seq<nat>, k: nat)
    requires Pinned(addr, len, pages) && base + len <= 0x1_0000_0000_0000_0000 && k <= |pages|
    ensures var t := Table(addr, len, pages); var w' := MoveAll(RdCh, w, JobsOf(RdCh, base, t)[..k]);
      && w'.host == w.host
      && forall a: nat :: w'.dev(a) ==
           if base <= a < base + Prefix(t, k) then w.host(Phys(addr, pages, a - base)) else w.dev(a)
  {
    hide Table, Touched, Phys, JobOf, JobsOf;
    if k > 0 {
      InboundCopies(w, base, addr, len, pages, k - 1);
      JobBytes(RdCh, base, addr, len, pages, k - 1);
      LastJob(RdCh, w, base, addr, len, pages, k);
    }
  }

  lemma LastJob(dir: Direction, w: World, base: u64, addr: u64, len: nat, pages: seq<nat>, k: nat)
    requires 0 < k <= |pages| && len < 0x1_0000_0000_0000_0000
    ensures var t := Table(addr, len, pages); var jobs := JobsOf(dir, base, t);
      MoveAll(dir, w, jobs[..k]) == Move(dir, MoveAll(dir, w, jobs[..k - 1]), JobOf(dir, base, t, k - 1))
  {
    var jobs := JobsOf(dir, base, Table(addr, len, pages));
    assert jobs[..k][..k - 1] == jobs[..k - 1];
  }

  ghost predicate DistinctPages(pages: seq<nat>) {
    forall i, j | 0 <= i < j < |pages| :: pages[i] != pages[j]
  }

  /** After `k` elements of an outbound list the first Prefix(t, k) bytes of the
      user buffer hold the device's, and no other host byte has changed, in the
      buffer's own first and last page or elsewhere. */
  lemma {:induction false} OutboundCopies(w: World, base: u64, addr: u64, len: nat, pages: seq<nat>, k: nat)
    requires Pinned(addr, len, pages) && DistinctPages(pages)
    requires base + len <= 0x1_0000_0000_0000_0000 && k <= |pages|
    ensures var t := Table(addr, len, pages); var w' := MoveAll(WrCh, w, JobsOf(WrCh, base, t)[..k]);
      && w'.dev == w.dev
      && (forall x: nat | x < Prefix(t, k) :: w'.host(Phys(addr, pages, x)) == w.dev(base + x))
      && (forall h: nat | (forall x: nat | x < Prefix(t, k) :: Phys(addr, pages, x) != h) :: w'.host(h) == w.host(h))
  {
    hide Table, Touched, Phys, JobOf, JobsOf, DistinctPages;
    if k > 0 {
      OutboundCopies(w, base, addr, len, pages, k - 1);
      JobBytes(WrCh, base, addr, len, pages, k - 1);
      LastJob(WrCh, w, base, addr, len, pages, k);
      var t := Table(addr, len, pages);
      var w1 := MoveAll(WrCh, w, JobsOf(WrCh, base, t)[..k - 1]);
      var j := JobOf(WrCh, base, t, k - 1);
      forall x: nat | x < Prefix(t, k)
        ensures Copy(w.dev, j.src, w1.host, j.dst, j.len)(Phys(addr, pages, x)) == w.dev(base + x)
      {
        if x < Prefix(t, k - 1) {
          EarlierPage(base, addr, len, pages, k - 1, x);
        }
      }
      forall h: nat | forall x: nat | x < Prefix(t, k) :: Phys(addr, pages, x) != h
        ensures Copy(w.dev, j.src, w1.host, j.dst, j.len)(h) == w.host(h)
      {
        if j.dst <= h {
          var x: nat := Prefix(t, k - 1) + (h - j.dst);
          var p := Phys(addr, pages, x);
          assert p == h ==> Prefix(t, k) <= x;
        }
      }
    }
  }

  /** Bytes of earlier entries lie outside what job `k` writes. */
  lemma EarlierPage(base: u64, addr: u64, len: nat, pages: seq<nat>, k: nat, x: nat)
    requires Pinned(addr, len, pages) && DistinctPages(pages) && k < |pages|
    requires x < Prefix(Table(addr, len, pages), k)
    ensures var j := JobOf(WrCh, base, Table(addr, len, pages), k); var p := Phys(addr, pages, x);
      !(j.dst <= p < j.dst + j.len)
  {
    hide Table, Touched;
    EntryInPage(addr, len, pages, k);
    var e := Table(addr, len, pages)[k];
    assert e.page * 4096 + e.offset < 0x1_0000_0000_0000_0000;
    var i := PageOf(addr, x);
    assert i < k;
    assert pages[i] != pages[k];
  }

  /** No narrowing on the way loses a bit: the block count fits the 32-bit field
      and the int, each entry's length fits 13 bits, and the list of elements
      fits the 32-bit transfer-size register. */
  lemma NarrowingLossless(addr: u64, len: u64, pages: seq<nat>)
    requires 0 < len < 0x1_0000_0000 && |pages| == PagesNr(addr, len)
    ensures |pages| == Touched(addr, len) <= 0x10_0001
    ensures 24 * (|pages| + 1) <= 24 * 0x10_0002 < 0x1_0000_0000
    ensures forall i | 0 <= i < |pages| :: Table(addr, len, pages)[i].len <= 4096
  {
    PagesNrIsCeiling(addr, len);
    forall i | 0 <= i < |pages| ensures Table(addr, len, pages)[i].len <= 4096 {
      EntryInPage(addr, len, pages, i);
    }
  }

  /** Memories once the image `s` is built in the kernel buffer at bus address
      `bus` and one plain transfer has copied it to `ptr`. */
  function Loaded(w: World, s: seq<byte>, bus: u64, ptr: u64): World
    requires |s| < 0x1_0000_0000
  {
    var w1 := w.(host := Store(w.host, bus, s));
    Move(RdCh, w1, Job(bus, ptr, |s|))
  }

  lemma LoadedIsList(w: World, s: seq<byte>, bus: u64, ptr: u64, jobs: seq<Job>)
    requires |s| < 0x1_0000_0000 && IsImage(s, jobs, ptr)
    ensures ListAt(Loaded(w, s, bus, ptr).dev, ptr, jobs)
  {
    hide IsImage, ListAt;
    var dev := Loaded(w, s, bus, ptr).dev;
    forall k | 0 <= k < |s| ensures dev(ptr + k) == s[k] {
    }
    ImageIsList(dev, s, jobs, ptr);
  }

  /** The kernel buffer shares no byte with the user's pages. */
  ghost predicate BufferApart(addr: nat, len: nat, pages: seq<nat>, bus: nat, n: nat) {
    forall x: nat | x < len :: !(bus <= Phys(addr, pages, x) < bus + n)
  }

  lemma JobsSpareList(base: u64, addr: u64, len: nat, pages: seq<nat>, ptr: u64)
    requires Pinned(addr, len, pages) && base + len <= 0x1_0000_0000_0000_0000
    requires Disjoint(base, len, ptr, 24 * (|pages| + 1))
    ensures SparesList(RdCh, ptr, JobsOf(RdCh, base, Table(addr, len, pages)))
  {
    hide JobOf, Table, Touched;
    var jobs := JobsOf(RdCh, base, Table(addr, len, pages));
    forall i | 0 <= i < |jobs| ensures Disjoint(jobs[i].dst, jobs[i].len, ptr, 24 * (|jobs| + 1)) {
      JobBytes(RdCh, base, addr, len, pages, i);
    }
  }

  /** The walk from any memories that hold the list: after any number `m` of steps
      the elements done so far have copied their part of the user buffer and no
      other byte has changed. The whole buffer has arrived exactly from step
      |pages| on; the engine halts exactly from step HaltAfter on. */
  lemma InboundWalk(start: World, strict: bool, base: u64, addr: u64, len: nat, pages: seq<nat>, ptr: u64, m: nat)
    requires Pinned(addr, len, pages) && base + len <= 0x1_0000_0000_0000_0000
    requires ListAt(start.dev, ptr, JobsOf(RdCh, base, Table(addr, len, pages)))
    requires Disjoint(base, len, ptr, 24 * (|pages| + 1))
    ensures var r := Steps(RdCh, strict, Run(start, Active(ptr, 1)), m);
      var n := Prefix(Table(addr, len, pages), Min(m, |pages|));
      && (r.k.Halted? <==> HaltAfter(strict, |pages|) <= m)
      && (n == len <==> |pages| <= m)
      && r.w.host == start.host
      && (forall a: nat :: r.w.dev(a) ==
            if base <= a < base + n then start.host(Phys(addr, pages, a - base)) else start.dev(a))
  {
    hide ListAt, Table, JobsOf, Touched, Phys, SparesList, Pinned, Steps, MoveAll, Prefix;
    PinnedSome(addr, len, pages);
    var jobs := JobsOf(RdCh, base, Table(addr, len, pages));
    JobsSpareList(base, addr, len, pages, ptr);
    WalkOnce(RdCh, strict, start, ptr, jobs, m);
    InboundCopies(start, base, addr, len, pages, Min(m, |pages|));
    WholeExactly(addr, len, pages, m);
  }

  /** The mirror walk on the write channel: only buffer bytes of the elements done
      change, in host memory alone. */
  lemma OutboundWalk(start: World, strict: bool, base: u64, addr: u64, len: nat, pages: seq<nat>, ptr: u64, m: nat)
    requires Pinned(addr, len, pages) && DistinctPages(pages) && base + len <= 0x1_0000_0000_0000_0000
    requires ListAt(start.dev, ptr, JobsOf(WrCh, base, Table(addr, len, pages)))
    ensures var r := Steps(WrCh, strict, Run(start, Active(ptr, 1)), m);
      var n := Prefix(Table(addr, len, pages), Min(m, |pages|));
      && (r.k.Halted? <==> HaltAfter(strict, |pages|) <= m)
      && (n == len <==> |pages| <= m)
      && r.w.dev == start.dev
      && (forall x: nat | x < n :: r.w.host(Phys(addr, pages, x)) == start.dev(base + x))
      && (forall h: nat | (forall x: nat | x < n :: Phys(addr, pages, x) != h) :: r.w.host(h) == start.host(h))
  {
    hide ListAt, Table, JobsOf, Touched, Phys, Pinned, DistinctPages, Steps, MoveAll, Prefix;
    PinnedSome(addr, len, pages);
    var jobs := JobsOf(WrCh, base, Table(addr, len, pages));
    WalkOnce(WrCh, strict, start, ptr, jobs, m);
    OutboundCopies(start, base, addr, len, pages, Min(m, |pages|));
    WholeExactly(addr, len, pages, m);
  }

  lemma PinnedSome(addr: u64, len: nat, pages: seq<nat>)
    requires Pinned(addr, len, pages)
    ensures len < 0x1_0000_0000 && |pages| > 0
    ensures forall dir, base: u64 :: |JobsOf(dir, base, Table(addr, len, pages))| == |pages|
  {
  }

  /** An inbound transfer from the built image on, with the engine stopped after
      any number `m` of steps: every byte of both memories. The list area holds the
      list and the kernel buffer its image. */
  lemma InboundTransfer(w: World, strict: bool, base: u64, addr: u64, len: nat, pages: seq<nat>,
                        s: seq<byte>, bus: u64, ptr: u64, m: nat)
    requires Pinned(addr, len, pages) && base + len <= 0x1_0000_0000_0000_0000
    requires IsImage(s, JobsOf(RdCh, base, Table(addr, len, pages)), ptr) && |s| < 0x1_0000_0000
    requires Disjoint(base, len, ptr, |s|) && BufferApart(addr, len, pages, bus, |s|)
    requires ptr + |s| <= 0x1_0000_0000_0000_0000 && bus + |s| <= 0x1_0000_0000_0000_0000
    ensures var r := Steps(RdCh, strict, Run(Loaded(w, s, bus, ptr), Active(ptr, 1)), m);
      var n := Prefix(Table(addr, len, pages), Min(m, |pages|));
      && (r.k.Halted? <==> HaltAfter(strict, |pages|) <= m)
      && (n == len <==> |pages| <= m)
      && (forall h: nat :: r.w.host(h) == if bus <= h < bus + |s| then s[h - bus] else w.host(h))
      && (forall a: nat :: r.w.dev(a) ==
            if base <= a < base + n then w.host(Phys(addr, pages, a - base))
            else if ptr <= a < ptr + |s| then s[a - ptr]
            else w.dev(a))
  {
    hide IsImage, ListAt, Table, JobsOf, Touched, Phys, Pinned, Steps, Prefix;
    ImageShape(RdCh, base, addr, len, pages, s, ptr);
    LoadedIsList(w, s, bus, ptr, JobsOf(RdCh, base, Table(addr, len, pages)));
    var w2 := Loaded(w, s, bus, ptr);
    InboundWalk(w2, strict, base, addr, len, pages, ptr, m);
    EntriesWithin(addr, len, pages, Min(m, |pages|));
    forall x: nat | x < len ensures w2.host(Phys(addr, pages, x)) == w.host(Phys(addr, pages, x)) {
    }
  }

  /** The mirror theorem for an outbound transfer: the list still travels on the
      read channel, the data on the write channel. */
  lemma OutboundTransfer(w: World, strict: bool, base: u64, addr: u64, len: nat, pages: seq<nat>,
                         s: seq<byte>, bus: u64, ptr: u64, m: nat)
    requires Pinned(addr, len, pages) && DistinctPages(pages) && base + len <= 0x1_0000_0000_0000_0000
    requires IsImage(s, JobsOf(WrCh, base, Table(addr, len, pages)), ptr) && |s| < 0x1_0000_0000
    requires Disjoint(base, len, ptr, |s|)
    requires ptr + |s| <= 0x1_0000_0000_0000_0000 && bus + |s| <= 0x1_0000_0000_0000_0000
    ensures var r := Steps(WrCh, strict, Run(Loaded(w, s, bus, ptr), Active(ptr, 1)), m);
      var n := Prefix(Table(addr, len, pages), Min(m, |pages|));
      && (r.k.Halted? <==> HaltAfter(strict, |pages|) <= m)
      && (n == len <==> |pages| <= m)
      && (forall a: nat :: r.w.dev(a) == if ptr <= a < ptr + |s| then s[a - ptr] else w.dev(a))
      && (forall x: nat | x < n :: r.w.host(Phys(addr, pages, x)) == w.dev(base + x))
      && (forall h: nat | (forall x: nat | x < n :: Phys(addr, pages, x) != h) ::
            r.w.host(h) == if bus <= h < bus + |s| then s[h - bus] else w.host(h))
  {
    hide IsImage, ListAt, Table, JobsOf, Touched, Phys, Pinned, DistinctPages, Steps, Prefix;
    ImageShape(WrCh, base, addr, len, pages, s, ptr);
    LoadedIsList(w, s, bus, ptr, JobsOf(WrCh, base, Table(addr, len, pages)));
    OutboundWalk(Loaded(w, s, bus, ptr), strict, base, addr, len, pages, ptr, m);
    EntriesWithin(addr, len, pages, Min(m, |pages|));
  }

  /** Every entry carries bytes, so the buffer is whole with the last and not before. */
  lemma WholeExactly(addr: u64, len: nat, pages: seq<nat>, m: nat)
    requires Pinned(addr, len, pages)
    ensures Prefix(Table(addr, len, pages), Min(m, |pages|)) == len <==> |pages| <= m
  {
    hide Table, Prefix;
    TotalLen(addr, len, pages);
    if m < |pages| {
      EntryInPage(addr, len, pages, m);
    }
  }

  lemma ImageShape(dir: Direction, base: u64, addr: u64, len: nat, pages: seq<nat>, s: seq<byte>, ptr: u64)
    requires Pinned(addr, len, pages)
    requires IsImage(s, JobsOf(dir, base, Table(addr, len, pages)), ptr)
    ensures |JobsOf(dir, base, Table(addr, len, pages))| == |pages| > 0 && |s| == 24 * (|pages| + 1)
    ensures |Table(addr, len, pages)| == |pages| && Prefix(Table(addr, len, pages), |pages|) == len
  {
    TotalLen(addr, len, pages);
  }

  lemma EntriesWithin(addr: u64, len: nat, pages: seq<nat>, k: nat)
    requires Pinned(addr, len, pages) && k <= |pages|
    ensures Prefix(Table(addr, len, pages), k) <= len
  {
    if k > 0 {
      EntryInPage(addr, len, pages, k - 1);
    }
  }
}
