/** The DMA engine as an explicit machine. Its rules are not in the repository;
    they are the ones the driver's descriptor fields and registers presuppose. */
module Engine {
  import opened Words
  import opened Memory
  import opened Descriptor

  /** A read channel moves host to device, a write channel device to host. */
  datatype Direction = RdCh | WrCh

  datatype Job = Job(src: u64, dst: u64, len: u32)

  function Move(dir: Direction, w: World, j: Job): World {
    match dir
    case RdCh => w.(dev := Copy(w.host, j.src, w.dev, j.dst, j.len))
    case WrCh => w.(host := Copy(w.dev, j.src, w.host, j.dst, j.len))
  }

  function MoveAll(dir: Direction, w: World, jobs: seq<Job>): World {
    if jobs == [] then w
    else Move(dir, MoveAll(dir, w, jobs[..|jobs| - 1]), jobs[|jobs| - 1])
  }

  /** Where the list walk stands: the next element's device address and the
      cycle state a data element's CB must equal. */
  datatype Walker = Active(ptr: nat, ccs: bit) | Halted

  datatype Run = Run(w: World, k: Walker)

  /** One element. A `strict` engine also stops at a link whose CB differs from
      the cycle state; the other follows every link. */
  function Step(dir: Direction, strict: bool, r: Run): Run {
    if r.k.Halted? then r
    else
      match DecodeAt(r.w.dev, r.k.ptr)
      case Link(cb, tcb, ptr) =>
        if strict && cb != r.k.ccs then r.(k := Halted)
        else r.(k := Active(ptr, if tcb == 1 then 1 - r.k.ccs else r.k.ccs))
      case Data(cb, _, _, src, dst, len) =>
        if cb != r.k.ccs then r.(k := Halted)
        else Run(Move(dir, r.w, Job(src, dst, len)), Active(r.k.ptr + 24, r.k.ccs))
  }

  function Steps(dir: Direction, strict: bool, r: Run, n: nat): Run {
    if n == 0 then r else Step(dir, strict, Steps(dir, strict, r, n - 1))
  }

  /** Device memory holds `jobs` at `base`: data elements with CB set, interrupts
      on the last one only, closed by a link back to `base` that toggles the
      cycle and has CB clear. */
  ghost predicate ListAt(dev: Mem, base: nat, jobs: seq<Job>) {
    && (forall i | 0 <= i < |jobs| ::
          var last := if i == |jobs| - 1 then 1 else 0;
          DecodeAt(dev, base + 24 * i) == Data(1, last, last, jobs[i].src, jobs[i].dst, jobs[i].len))
    && base < 0x1_0000_0000_0000_0000
    && DecodeAt(dev, base + 24 * |jobs|) == Link(0, 1, base)
  }

  /** No job of a read channel writes where its own list lies. */
  ghost predicate SparesList(dir: Direction, base: nat, jobs: seq<Job>) {
    dir == RdCh ==> forall i | 0 <= i < |jobs| :: Disjoint(jobs[i].dst, jobs[i].len, base, 24 * (|jobs| + 1))
  }

  lemma SameBytesDecode(m: Mem, m': Mem, at: nat)
    requires forall a: nat | at <= a < at + 24 :: m(a) == m'(a)
    ensures DecodeAt(m, at) == DecodeAt(m', at)
  {
    assert Read(m, at, 24) == Read(m', at, 24);
  }

  lemma ListFrame(m: Mem, m': Mem, base: nat, jobs: seq<Job>)
    requires ListAt(m, base, jobs)
    requires forall a: nat | base <= a < base + 24 * (|jobs| + 1) :: m(a) == m'(a)
    ensures ListAt(m', base, jobs)
  {
    forall i | 0 <= i <= |jobs| ensures DecodeAt(m, base + 24 * i) == DecodeAt(m', base + 24 * i) {
      SameBytesDecode(m, m', base + 24 * i);
    }
  }

  lemma {:induction false} WalkPrefix(dir: Direction, strict: bool, w: World, base: nat, jobs: seq<Job>, i: nat)
    requires ListAt(w.dev, base, jobs) && SparesList(dir, base, jobs) && i <= |jobs|
    ensures Steps(dir, strict, Run(w, Active(base, 1)), i) == Run(MoveAll(dir, w, jobs[..i]), Active(base + 24 * i, 1))
    ensures ListAt(MoveAll(dir, w, jobs[..i]).dev, base, jobs)
  {
    hide DecodeAt;
    if i > 0 {
      WalkPrefix(dir, strict, w, base, jobs, i - 1);
      assert jobs[..i][..i - 1] == jobs[..i - 1];
      var before := MoveAll(dir, w, jobs[..i - 1]);
      assert MoveAll(dir, w, jobs[..i]) == Move(dir, before, jobs[i - 1]);
      ListFrame(before.dev, Move(dir, before, jobs[i - 1]).dev, base, jobs);
    }
  }

  function HaltAfter(strict: bool, n: nat): nat { if strict then n + 1 else n + 2 }

  /** The ring is walked exactly once. The list's addresses form a cycle, but the
      engine stops after the n data elements, each executed once and in order,
      and after no fewer steps than that. */
  lemma {:induction false} WalkOnce(dir: Direction, strict: bool, w: World, base: nat, jobs: seq<Job>, m: nat)
    requires ListAt(w.dev, base, jobs) && SparesList(dir, base, jobs) && |jobs| > 0
    ensures var r := Steps(dir, strict, Run(w, Active(base, 1)), m);
      && r.w == MoveAll(dir, w, jobs[..if m < |jobs| then m else |jobs|])
      && (r.k.Halted? <==> HaltAfter(strict, |jobs|) <= m)
  {
    hide DecodeAt;
    if m <= |jobs| {
      WalkPrefix(dir, strict, w, base, jobs, m);
    } else {
      WalkPrefix(dir, strict, w, base, jobs, |jobs|);
      assert jobs[..|jobs|] == jobs;
      var start, all := Run(w, Active(base, 1)), MoveAll(dir, w, jobs);
      assert Steps(dir, strict, start, |jobs| + 1) == Run(all, if strict then Halted else Active(base, 0));
      if m > |jobs| + 1 {
        WalkOnce(dir, strict, w, base, jobs, m - 1);
        if m == |jobs| + 2 && !strict {
          assert jobs[0].len >= 0 && base + 24 * 0 == base;
          assert DecodeAt(all.dev, base).Data?;
        }
      }
    }
  }
}
