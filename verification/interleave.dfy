/** Any number of transfers at once. Register stores and engine steps interleave
    freely and a channel's lock is free between the two phases of a call; still
    each finished call has had its stand-alone effect. */
module Interleave {
  import opened Common
  import opened Words
  import opened Memory
  import opened Descriptor
  import opened Engine
  import opened Registers
  import opened Channel
  import opened Scatter
  import opened Pipeline

  /** One call, from its built list on: `chan` is the hdma index, `bus` the kernel
      buffer's address, `image` the list. */
  datatype Call = Call(dir: Direction, chan: nat, addr: u64, len: u32, pages: seq<nat>, base: u64,
                       bus: u64, ptr: u64, image: seq<byte>)

  datatype Phase = DescPh | DataPh

  datatype Eng = Copying(job: Job) | Walking(k: Walker) | Stopped

  /** Regs: the channel is locked, `k` register stores are done on top of `rf`.
      Rung: the doorbell has rung. `m` counts the engine's steps on the list. */
  datatype Pc =
    | New | Built | Regs(ph: Phase, k: nat, rf: RegFile) | Rung(ph: Phase, e: Eng, m: nat) | Sent | Finished(m: nat)

  datatype State = State(rf: RegFile, w: World, locks: map<(Direction, nat), nat>, pcs: seq<Pc>)

  function ChanOf(c: Call, ph: Phase): (Direction, nat) { (if ph == DescPh then RdCh else c.dir, c.chan) }

  function PhaseWrites(c: Call, ph: Phase): Writes
    requires |c.image| < 0x1_0000_0000
  {
    if ph == DescPh then DescPhase(|c.image|, c.bus, c.ptr) else ChainPhase(c.ptr)
  }

  function Latch(cfg: Config): Eng {
    match cfg
    case Plain(job) => Copying(job)
    case Chain(ptr, ccs) => Walking(Active(ptr, ccs))
  }

  /** One step of an engine that is not stopped. */
  function EngStep(dir: Direction, strict: bool, w: World, e: Eng): (World, Eng) {
    match e
    case Copying(job) => (Move(dir, w, job), Stopped)
    case Walking(k) =>
      var r := Step(dir, strict, Run(w, k));
      (r.w, if r.k.Halted? then Stopped else Walking(r.k))
    case Stopped => (w, Stopped)
  }

  /** The phase's stores in order, and the doorbell's after them. */
  function NextStore(c: Call, ph: Phase, k: nat): (nat, u32)
    requires |c.image| < 0x1_0000_0000
  {
    var (d, n) := ChanOf(c, ph);
    var ws := PhaseWrites(c, ph);
    if k < |ws| then (Address(d, n, ws[k].0), ws[k].1) else (Address(d, n, Doorbell), 1)
  }

  /** Whether a store starts the channel's engine is for the store itself to say. */
  function AfterStore(rf: RegFile, at: nat, v: u32, ch: (Direction, nat), p: Pc): Pc
    requires p.Regs?
  {
    match Latched(rf, at, v)
    case Some((c, cfg)) => if c == ch then Rung(p.ph, Latch(cfg), 0) else Regs(p.ph, p.k + 1, p.rf)
    case None => Regs(p.ph, p.k + 1, p.rf)
  }

  /** The phase's own stores start nothing; the doorbell's starts the channel on what
      its registers say. */
  lemma StoreStarts(rf: RegFile, c: Call, p: Pc)
    requires |c.image| < 0x1_0000_0000 && c.chan < 16 && p.Regs?
    ensures var ch := ChanOf(c, p.ph); var (at, v) := NextStore(c, p.ph, p.k);
      AfterStore(rf, at, v, ch, p) ==
        if p.k < |PhaseWrites(c, p.ph)| then Regs(p.ph, p.k + 1, p.rf) else Rung(p.ph, Latch(ConfigOf(rf, ch.0, ch.1)), 0)
    ensures p.k < |PhaseWrites(c, p.ph)| ==> var (at, v) := NextStore(c, p.ph, p.k); Latched(rf, at, v) == None
  {
    hide Address, ConfigOf, Latch, DoorbellAt;
    var (d, n) := ChanOf(c, p.ph);
    var ws := PhaseWrites(c, p.ph);
    NoBell(c, p.ph);
    hide PhaseWrites;
    if p.k < |ws| {
      OnlyDoorbells(d, n, ws[p.k].0);
    } else {
      OnlyDoorbells(d, n, Doorbell);
    }
  }

  lemma NoBell(c: Call, ph: Phase)
    requires |c.image| < 0x1_0000_0000
    ensures forall k | 0 <= k < |PhaseWrites(c, ph)| :: PhaseWrites(c, ph)[k].0 != Doorbell
  {
  }

  ghost predicate Step1(strict: bool, calls: seq<Call>, s: State, s': State, i: nat)
    requires forall j | 0 <= j < |calls| :: |calls[j].image| < 0x1_0000_0000
  {
    i < |s.pcs| == |calls| &&
    var c := calls[i];
    match s.pcs[i]
    case New => s' == s.(w := s.w.(host := Store(s.w.host, c.bus, c.image)), pcs := s.pcs[i := Built])
    case Built =>
      ChanOf(c, DescPh) !in s.locks
      && s' == s.(locks := s.locks[ChanOf(c, DescPh) := i], pcs := s.pcs[i := Regs(DescPh, 0, s.rf)])
    case Regs(ph, k, rf) =>
      var ch := ChanOf(c, ph);
      var (at, v) := NextStore(c, ph, k);
      s' == s.(rf := Set(s.rf, at, v), pcs := s.pcs[i := AfterStore(s.rf, at, v, ch, s.pcs[i])])
    case Rung(ph, e, m) =>
      if e.Stopped? then
        s' == s.(locks := s.locks - {ChanOf(c, ph)}, pcs := s.pcs[i := if ph == DescPh then Sent else Finished(m)])
      else
        var (w, e') := EngStep(ChanOf(c, ph).0, strict, s.w, e);
        s' == s.(w := w, pcs := s.pcs[i := Rung(ph, e', m + 1)])
    case Sent =>
      ChanOf(c, DataPh) !in s.locks
      && s' == s.(locks := s.locks[ChanOf(c, DataPh) := i], pcs := s.pcs[i := Regs(DataPh, 0, s.rf)])
    case Finished(_) => false
  }

  // ------------------------------------------------------------ footprints

  datatype Loc = Host(a: nat) | Dev(a: nat)

  function Get(w: World, l: Loc): byte {
    match l
    case Host(a) => w.host(a)
    case Dev(a) => w.dev(a)
  }

  ghost predicate UserByte(c: Call, a: nat) { exists x: nat :: x < c.len && Phys(c.addr, c.pages, x) == a }

  predicate Within(a: nat, at: nat, n: nat) { at <= a < at + n }

  ghost predicate Writes1(c: Call, l: Loc) {
    match l
    case Host(a) => Within(a, c.bus, |c.image|) || (c.dir == WrCh && UserByte(c, a))
    case Dev(a) => Within(a, c.ptr, |c.image|) || (c.dir == RdCh && Within(a, c.base, c.len))
  }

  /** All bytes a call reads or writes. */
  ghost predicate Touches(c: Call, l: Loc) {
    match l
    case Host(a) => Within(a, c.bus, |c.image|) || UserByte(c, a)
    case Dev(a) => Within(a, c.ptr, |c.image|) || Within(a, c.base, c.len)
  }

  ghost predicate CallOk(c: Call) {
    && c.chan < 16
    && Pinned(c.addr, c.len, c.pages) && (c.dir == WrCh ==> DistinctPages(c.pages))
    && c.base + c.len <= 0x1_0000_0000_0000_0000
    && |c.image| < 0x1_0000_0000
    && c.ptr + |c.image| <= 0x1_0000_0000_0000_0000 && c.bus + |c.image| <= 0x1_0000_0000_0000_0000
    && IsImage(c.image, JobsOf(c.dir, c.base, Table(c.addr, c.len, c.pages)), c.ptr)
    && Disjoint(c.base, c.len, c.ptr, |c.image|)
    && BufferApart(c.addr, c.len, c.pages, c.bus, |c.image|)
  }

  /** No call writes a byte another one touches. */
  ghost predicate Independent(calls: seq<Call>) {
    forall i, j, l | 0 <= i < |calls| && 0 <= j < |calls| && i != j :: Writes1(calls[i], l) ==> !Touches(calls[j], l)
  }

  /** The call's own reference memories, as if it ran alone from `w0`. */
  function Alone(strict: bool, c: Call, w0: World, m: nat): Run
    requires |c.image| < 0x1_0000_0000
  {
    Steps(c.dir, strict, Run(Loaded(w0, c.image, c.bus, c.ptr), Active(c.ptr, 1)), m)
  }

  function Reference(strict: bool, c: Call, w0: World, p: Pc): World
    requires |c.image| < 0x1_0000_0000
  {
    var built := w0.(host := Store(w0.host, c.bus, c.image));
    match p
    case New => w0
    case Built => built
    case Regs(ph, _, _) => if ph == DescPh then built else Loaded(w0, c.image, c.bus, c.ptr)
    case Rung(ph, e, m) =>
      if ph == DataPh then Alone(strict, c, w0, m).w
      else if e.Stopped? then Loaded(w0, c.image, c.bus, c.ptr)
      else built
    case Sent => Loaded(w0, c.image, c.bus, c.ptr)
    case Finished(m) => Alone(strict, c, w0, m).w
  }

  ghost predicate Agree(c: Call, w: World, w': World) {
    forall l | Touches(c, l) :: Get(w, l) == Get(w', l)
  }

  function EngOf(k: Walker): Eng { if k.Halted? then Stopped else Walking(k) }

  /** What the program position says of registers and engine. */
  ghost predicate PcOk(strict: bool, c: Call, rf: RegFile, w0: World, p: Pc)
    requires |c.image| < 0x1_0000_0000
  {
    match p
    case Regs(ph, k, rf0) =>
      var (d, n) := ChanOf(c, ph);
      k <= |PhaseWrites(c, ph)|
      && forall r :: Reg(rf, d, n, r) == Reg(Program(rf0, d, n, PhaseWrites(c, ph)[..k]), d, n, r)
    case Rung(ph, e, m) =>
      if ph == DescPh then e == Copying(Job(c.bus, c.ptr, |c.image|)) || e == Stopped
      else e == EngOf(Alone(strict, c, w0, m).k)
    case Finished(m) => Alone(strict, c, w0, m).k.Halted?
    case _ => true
  }

  ghost predicate CallsOk(calls: seq<Call>) {
    (forall j | 0 <= j < |calls| :: CallOk(calls[j])) && Independent(calls)
  }

  ghost predicate Inv1(strict: bool, c: Call, w0: World, s: State, i: nat)
    requires i < |s.pcs| && |c.image| < 0x1_0000_0000
  {
    && Agree(c, s.w, Reference(strict, c, w0, s.pcs[i]))
    && PcOk(strict, c, s.rf, w0, s.pcs[i])
    && (s.pcs[i].Regs? || s.pcs[i].Rung? ==>
          ChanOf(c, s.pcs[i].ph) in s.locks && s.locks[ChanOf(c, s.pcs[i].ph)] == i)
  }

  ghost predicate Untouched(calls: seq<Call>, w0: World, w: World) {
    forall l | (forall j | 0 <= j < |calls| :: !Writes1(calls[j], l)) :: Get(w, l) == Get(w0, l)
  }

  ghost predicate Inv(strict: bool, calls: seq<Call>, w0: World, s: State)
    requires CallsOk(calls)
  {
    && |s.pcs| == |calls|
    && (forall i | 0 <= i < |calls| :: Inv1(strict, calls[i], w0, s, i))
    && Untouched(calls, w0, s.w)
  }

  // ------------------------------------------------------- one call's steps

  /** `w'` differs from `w` only where the call writes. */
  ghost predicate Changes(c: Call, w: World, w': World) {
    forall l | !Writes1(c, l) :: Get(w', l) == Get(w, l)
  }

  function SrcLoc(dir: Direction, j: Job, k: nat): Loc { if dir == RdCh then Host(j.src + k) else Dev(j.src + k) }

  function DstLoc(dir: Direction, j: Job, k: nat): Loc { if dir == RdCh then Dev(j.dst + k) else Host(j.dst + k) }

  ghost predicate ReadsTouched(c: Call, dir: Direction, j: Job) {
    forall k: nat | k < j.len :: Touches(c, SrcLoc(dir, j, k))
  }

  ghost predicate WritesWritten(c: Call, dir: Direction, j: Job) {
    forall k: nat | k < j.len :: Writes1(c, DstLoc(dir, j, k))
  }

  lemma MoveAgrees(c: Call, dir: Direction, w: World, w': World, j: Job)
    requires Agree(c, w, w') && ReadsTouched(c, dir, j)
    ensures Agree(c, Move(dir, w, j), Move(dir, w', j))
  {
    hide Touches;
    forall l | Touches(c, l) ensures Get(Move(dir, w, j), l) == Get(Move(dir, w', j), l) {
      var k := l.a - j.dst;
      if 0 <= k < j.len {
        var from := SrcLoc(dir, j, k);
        assert Touches(c, from);
        assert Get(w, from) == Get(w', from);
      }
      assert Get(w, l) == Get(w', l);
    }
  }

  lemma MoveChanges(c: Call, dir: Direction, w: World, j: Job)
    requires WritesWritten(c, dir, j)
    ensures Changes(c, w, Move(dir, w, j))
  {
    hide Writes1;
    forall l | !Writes1(c, l) ensures Get(Move(dir, w, j), l) == Get(w, l) {
      var k := l.a - j.dst;
      if 0 <= k < j.len {
        assert Writes1(c, DstLoc(dir, j, k));
      }
    }
  }

  /** Every job reads and writes inside the call's footprint. */
  lemma JobInside(c: Call, i: nat)
    requires CallOk(c) && i < |c.pages|
    ensures var j := JobOf(c.dir, c.base, Table(c.addr, c.len, c.pages), i);
      ReadsTouched(c, c.dir, j) && WritesWritten(c, c.dir, j)
  {
    hide Table, IsImage, JobOf, Phys, Touched;
    var t := Table(c.addr, c.len, c.pages);
    var j := JobOf(c.dir, c.base, t, i);
    JobBytes(c.dir, c.base, c.addr, c.len, c.pages, i);
    forall k: nat | k < j.len
      ensures Touches(c, SrcLoc(c.dir, j, k)) && Writes1(c, DstLoc(c.dir, j, k))
    {
      var x: nat := Prefix(t, i) + k;
      assert Phys(c.addr, c.pages, x) == (if c.dir == RdCh then j.src else j.dst) + k;
      assert UserByte(c, (if c.dir == RdCh then j.src else j.dst) + k);
    }
  }

  /** Where the reference run stands after `m` steps, and the element it sees. */
  lemma AloneAt(strict: bool, c: Call, w0: World, m: nat)
    requires CallOk(c) && Alone(strict, c, w0, m).k.Active?
    ensures var r := Alone(strict, c, w0, m); var n := |c.pages|;
      && c.ptr <= r.k.ptr && r.k.ptr + 24 <= c.ptr + |c.image|
      && (m < n ==>
            var j := JobOf(c.dir, c.base, Table(c.addr, c.len, c.pages), m);
            var last := if m == n - 1 then 1 else 0;
            r.k.ccs == 1 && DecodeAt(r.w.dev, r.k.ptr) == Data(1, last, last, j.src, j.dst, j.len))
      && (m >= n ==> DecodeAt(r.w.dev, r.k.ptr).Link? || DecodeAt(r.w.dev, r.k.ptr).cb != r.k.ccs)
  {
    hide Table, IsImage, JobOf, Phys, Touched, Loaded, DecodeAt, SparesList, Pinned, DistinctPages, BufferApart;
    var t := Table(c.addr, c.len, c.pages);
    var jobs := JobsOf(c.dir, c.base, t);
    var start := Loaded(w0, c.image, c.bus, c.ptr);
    ImageShape(c.dir, c.base, c.addr, c.len, c.pages, c.image, c.ptr);
    LoadedIsList(w0, c.image, c.bus, c.ptr, jobs);
    CallSpares(c);
    WalkOnce(c.dir, strict, start, c.ptr, jobs, m);
    var n := |c.pages|;
    if m <= n {
      WalkPrefix(c.dir, strict, start, c.ptr, jobs, m);
      if m < n {
        assert jobs[m] == JobOf(c.dir, c.base, t, m);
      }
    } else {
      WalkPrefix(c.dir, strict, start, c.ptr, jobs, n);
      var at := Run(MoveAll(c.dir, start, jobs[..n]), Active(c.ptr + 24 * n, 1));
      assert Steps(c.dir, strict, Run(start, Active(c.ptr, 1)), n + 1) == Step(c.dir, strict, at);
      assert m == n + 1;
      assert jobs[0].len >= 0 && c.ptr + 24 * 0 == c.ptr;
      assert DecodeAt(at.w.dev, c.ptr).Data?;
    }
  }

  lemma CallSpares(c: Call)
    requires CallOk(c)
    ensures SparesList(c.dir, c.ptr, JobsOf(c.dir, c.base, Table(c.addr, c.len, c.pages)))
  {
    hide Table, IsImage, JobsOf, JobOf, Phys, Touched;
    ImageShape(c.dir, c.base, c.addr, c.len, c.pages, c.image, c.ptr);
    if c.dir == RdCh {
      JobsSpareList(c.base, c.addr, c.len, c.pages, c.ptr);
    }
  }

  /** The engine's next step on the shared memories is its next step alone. */
  lemma EngineStep(strict: bool, c: Call, w0: World, w: World, m: nat)
    requires CallOk(c) && Alone(strict, c, w0, m).k.Active? && Agree(c, w, Alone(strict, c, w0, m).w)
    ensures var r := Step(c.dir, strict, Run(w, Alone(strict, c, w0, m).k)); var r' := Alone(strict, c, w0, m + 1);
      r.k == r'.k && Agree(c, r.w, r'.w) && Changes(c, w, r.w)
  {
    hide Table, IsImage, JobOf, Phys, Loaded, DecodeAt, UserByte, Pinned, DistinctPages, BufferApart;
    var a := Alone(strict, c, w0, m);
    AloneAt(strict, c, w0, m);
    forall x: nat | a.k.ptr <= x < a.k.ptr + 24 ensures w.dev(x) == a.w.dev(x) {
      assert Touches(c, Dev(x));
      assert Get(w, Dev(x)) == Get(a.w, Dev(x));
    }
    SameBytesDecode(w.dev, a.w.dev, a.k.ptr);
    if m < |c.pages| {
      var j := JobOf(c.dir, c.base, Table(c.addr, c.len, c.pages), m);
      JobInside(c, m);
      MoveAgrees(c, c.dir, w, a.w, j);
      MoveChanges(c, c.dir, w, j);
    }
  }

  // ------------------------------------------------------------- invariant

  lemma StoreAgrees(c: Call, w: World, w0: World)
    requires Agree(c, w, w0)
    ensures var w' := w.(host := Store(w.host, c.bus, c.image));
      Agree(c, w', w0.(host := Store(w0.host, c.bus, c.image))) && Changes(c, w, w')
  {
    hide Touches, UserByte;
    var w' := w.(host := Store(w.host, c.bus, c.image));
    var r := w0.(host := Store(w0.host, c.bus, c.image));
    forall l | Touches(c, l) ensures Get(w', l) == Get(r, l) {
      assert Get(w, l) == Get(w0, l);
    }
  }

  /** The descriptor phase's one copy, on the shared memories and alone. */
  lemma SendAgrees(c: Call, w: World, w0: World)
    requires |c.image| < 0x1_0000_0000 && Agree(c, w, w0.(host := Store(w0.host, c.bus, c.image)))
    ensures var w' := Move(RdCh, w, Job(c.bus, c.ptr, |c.image|));
      Agree(c, w', Loaded(w0, c.image, c.bus, c.ptr)) && Changes(c, w, w')
  {
    hide UserByte;
    var j := Job(c.bus, c.ptr, |c.image|);
    MoveAgrees(c, RdCh, w, w0.(host := Store(w0.host, c.bus, c.image)), j);
    MoveChanges(c, RdCh, w, j);
  }

  /** Another call's writes leave what this call touches alone. */
  lemma OthersKeep(calls: seq<Call>, i: nat, j: nat, w: World, w': World, r: World)
    requires Independent(calls) && i < |calls| && j < |calls| && i != j
    requires Changes(calls[i], w, w') && Agree(calls[j], w, r)
    ensures Agree(calls[j], w', r)
  {
    hide Touches, Writes1;
    forall l | Touches(calls[j], l) ensures Get(w', l) == Get(r, l) {
      assert !Writes1(calls[i], l);
    }
  }

  lemma UntouchedKeeps(calls: seq<Call>, i: nat, w0: World, w: World, w': World)
    requires i < |calls| && Untouched(calls, w0, w) && Changes(calls[i], w, w')
    ensures Untouched(calls, w0, w')
  {
    hide Writes1;
  }

  lemma SameChanges(c: Call, w: World)
    ensures Changes(c, w, w)
  {
  }

  /** The step's own call keeps its part of the invariant, and changes memory only
      where it writes. */
  lemma OwnStep(strict: bool, calls: seq<Call>, w0: World, s: State, s': State, i: nat)
    requires CallsOk(calls) && Inv(strict, calls, w0, s) && i < |calls| && Step1(strict, calls, s, s', i)
    ensures |s'.pcs| == |calls| && Inv1(strict, calls[i], w0, s', i) && Changes(calls[i], s.w, s'.w)
  {
    hide Agree, Changes, Store, Loaded, CallOk, Steps, Step, Program, ConfigOf, Independent, Untouched, DescPhase, ChainPhase;
    var c := calls[i];
    CallSmall(c);
    assert Inv1(strict, c, w0, s, i);
    SameChanges(c, s.w);
    match s.pcs[i]
    case New => StoreAgrees(c, s.w, w0);
    case Built => NoWrites(s.rf, c, DescPh);
    case Sent => NoWrites(s.rf, c, DataPh);
    case Regs(ph, k, rf) =>
      StoreStarts(s.rf, c, s.pcs[i]);
      if k < |PhaseWrites(c, ph)| {
        RegMore(s.rf, rf, c, ph, k);
      } else {
        RegsLatch(s.rf, rf, c, ph);
        AloneStart(strict, c, w0);
      }
    case Rung(ph, e, m) =>
      if !e.Stopped? {
        if ph == DescPh {
          SendAgrees(c, s.w, w0);
        } else {
          EngineStep(strict, c, w0, s.w, m);
        }
      }
    case _ =>
  }

  lemma CallSmall(c: Call)
    requires CallOk(c)
    ensures |c.image| < 0x1_0000_0000 && c.chan < 16
  {
  }

  lemma NoWrites(rf: RegFile, c: Call, ph: Phase)
    requires |c.image| < 0x1_0000_0000
    ensures Program(rf, ChanOf(c, ph).0, c.chan, PhaseWrites(c, ph)[..0]) == rf
  {
  }

  lemma RegMore(rf: RegFile, rf0: RegFile, c: Call, ph: Phase, k: nat)
    requires |c.image| < 0x1_0000_0000 && k < |PhaseWrites(c, ph)|
    requires var (d, n) := ChanOf(c, ph);
      forall r :: Reg(rf, d, n, r) == Reg(Program(rf0, d, n, PhaseWrites(c, ph)[..k]), d, n, r)
    ensures var (d, n) := ChanOf(c, ph); var ws := PhaseWrites(c, ph);
      forall r :: Reg(Set(rf, Address(d, n, ws[k].0), ws[k].1), d, n, r) == Reg(Program(rf0, d, n, ws[..k + 1]), d, n, r)
  {
    hide Address, PhaseWrites;
    var ws := PhaseWrites(c, ph);
    var (d, n) := ChanOf(c, ph);
    assert ws[..k + 1][..k] == ws[..k];
    var a, b := Set(rf, Address(d, n, ws[k].0), ws[k].1), Program(rf0, d, n, ws[..k + 1]);
    assert b == Set(Program(rf0, d, n, ws[..k]), Address(d, n, ws[k].0), ws[k].1);
    forall r ensures Reg(a, d, n, r) == Reg(b, d, n, r) {
      assert Reg(rf, d, n, r) == Reg(Program(rf0, d, n, ws[..k]), d, n, r);
    }
  }

  /** When the doorbell rings the engine latches what this phase asked for,
      whatever earlier phases of any call left in the registers. */
  lemma RegsLatch(rf: RegFile, rf0: RegFile, c: Call, ph: Phase)
    requires |c.image| < 0x1_0000_0000
    requires var (d, n) := ChanOf(c, ph); var ws := PhaseWrites(c, ph);
      forall r :: Reg(rf, d, n, r) == Reg(Program(rf0, d, n, ws[..|ws|]), d, n, r)
    ensures var (d, n) := ChanOf(c, ph);
      Latch(ConfigOf(rf, d, n)) == if ph == DescPh then Copying(Job(c.bus, c.ptr, |c.image|)) else Walking(Active(c.ptr, 1))
  {
    hide Address, Program, DescPhase, ChainPhase;
    var (d, n) := ChanOf(c, ph);
    var ws := PhaseWrites(c, ph);
    assert ws[..|ws|] == ws;
    if ph == DescPh {
      DescPhaseConfigures(rf0, d, n, |c.image|, c.bus, c.ptr);
    } else {
      ChainPhaseConfigures(rf0, d, n, c.ptr);
    }
  }

  lemma AloneStart(strict: bool, c: Call, w0: World)
    requires |c.image| < 0x1_0000_0000
    ensures Alone(strict, c, w0, 0) == Run(Loaded(w0, c.image, c.bus, c.ptr), Active(c.ptr, 1))
  {
  }

  /** A register store to one channel is unseen by every other. */
  lemma StoreElsewhere(rf: RegFile, d: Direction, n: nat, r: ChanReg, v: u32, d': Direction, n': nat)
    requires (d, n) != (d', n')
    ensures forall r' :: Reg(Set(rf, Address(d, n, r), v), d', n', r') == Reg(rf, d', n', r')
  {
    forall r' ensures Address(d, n, r) != Address(d', n', r') {
      AddressInjective(d, n, r, d', n', r');
    }
  }

  /** A call's registers change only by its own steps while it holds the channel. */
  lemma RegistersKept(strict: bool, calls: seq<Call>, w0: World, s: State, s': State, i: nat, j: nat)
    requires CallsOk(calls) && Inv(strict, calls, w0, s) && i < |calls| && j < |calls| && i != j
    requires Step1(strict, calls, s, s', i) && (s.pcs[j].Regs? || s.pcs[j].Rung?)
    ensures var (d, n) := ChanOf(calls[j], s.pcs[j].ph);
      (forall r :: Reg(s'.rf, d, n, r) == Reg(s.rf, d, n, r)) && (d, n) in s'.locks && s'.locks[(d, n)] == j
  {
    hide Agree, Changes, CallOk, Steps, Program, ConfigOf, Independent, Untouched, Address, EngStep, PhaseWrites, PcOk;
    CallSmall(calls[i]);
    CallSmall(calls[j]);
    assert Inv1(strict, calls[i], w0, s, i) && Inv1(strict, calls[j], w0, s, j);
    var (d', n') := ChanOf(calls[j], s.pcs[j].ph);
    match s.pcs[i]
    case Regs(ph, k, rf) =>
      var (d, n) := ChanOf(calls[i], ph);
      var ws := PhaseWrites(calls[i], ph);
      if k < |ws| {
        StoreElsewhere(s.rf, d, n, ws[k].0, ws[k].1, d', n');
      } else {
        StoreElsewhere(s.rf, d, n, Doorbell, 1, d', n');
      }
    case _ =>
  }

  lemma OtherStep(strict: bool, calls: seq<Call>, w0: World, s: State, s': State, i: nat, j: nat)
    requires CallsOk(calls) && Inv(strict, calls, w0, s) && i < |calls| && j < |calls| && i != j
    requires Step1(strict, calls, s, s', i) && Changes(calls[i], s.w, s'.w)
    ensures j < |s'.pcs| && |calls[j].image| < 0x1_0000_0000 && Inv1(strict, calls[j], w0, s', j)
  {
    hide Agree, Changes, CallOk, Steps, Program, ConfigOf, Independent, Untouched, EngStep, PhaseWrites, Reference, Reg;
    CallSmall(calls[i]);
    CallSmall(calls[j]);
    assert Inv1(strict, calls[j], w0, s, j);
    assert s'.pcs[j] == s.pcs[j];
    OthersKeep(calls, i, j, s.w, s'.w, Reference(strict, calls[j], w0, s.pcs[j]));
    if s.pcs[j].Regs? || s.pcs[j].Rung? {
      RegistersKept(strict, calls, w0, s, s', i, j);
    }
  }

  lemma AllSmall(calls: seq<Call>)
    requires CallsOk(calls)
    ensures forall j | 0 <= j < |calls| :: |calls[j].image| < 0x1_0000_0000
  {
    hide CallOk;
    forall j | 0 <= j < |calls| ensures |calls[j].image| < 0x1_0000_0000 {
      CallSmall(calls[j]);
    }
  }

  lemma StepInRange(strict: bool, calls: seq<Call>, s: State, s': State, i: nat)
    requires forall j | 0 <= j < |calls| :: |calls[j].image| < 0x1_0000_0000
    requires Step1(strict, calls, s, s', i)
    ensures i < |calls| == |s.pcs| == |s'.pcs|
  {
    hide EngStep, PhaseWrites, ConfigOf;
  }

  lemma InvStep(strict: bool, calls: seq<Call>, w0: World, s: State, s': State, i: nat)
    requires CallsOk(calls) && Inv(strict, calls, w0, s) && Step1(strict, calls, s, s', i)
    ensures Inv(strict, calls, w0, s')
  {
    hide Inv1, CallOk, Untouched, Changes, Step1, Independent;
    AllSmall(calls);
    StepInRange(strict, calls, s, s', i);
    OwnStep(strict, calls, w0, s, s', i);
    UntouchedKeeps(calls, i, w0, s.w, s'.w);
    forall j | 0 <= j < |calls| ensures Inv1(strict, calls[j], w0, s', j) {
      if j != i {
        OtherStep(strict, calls, w0, s, s', i, j);
      }
    }
  }

  ghost predicate Next(strict: bool, calls: seq<Call>, s: State, s': State)
    requires forall j | 0 <= j < |calls| :: |calls[j].image| < 0x1_0000_0000
  {
    exists i :: Step1(strict, calls, s, s', i)
  }

  /** A run of the calls from any registers and memories, all locks free. */
  ghost predicate IsRun(strict: bool, calls: seq<Call>, run: seq<State>)
    requires forall j | 0 <= j < |calls| :: |calls[j].image| < 0x1_0000_0000
  {
    && |run| > 0 && |run[0].pcs| == |calls| && run[0].locks == map[]
    && (forall i | 0 <= i < |calls| :: run[0].pcs[i] == New)
    && forall k | 0 < k < |run| :: Next(strict, calls, run[k - 1], run[k])
  }

  lemma {:induction false} RunInv(strict: bool, calls: seq<Call>, run: seq<State>, k: nat)
    requires CallsOk(calls) && IsRun(strict, calls, run) && k < |run|
    ensures Inv(strict, calls, run[0].w, run[k])
  {
    hide CallOk, Independent, Inv, Step1;
    AllSmall(calls);
    if k > 0 {
      RunInv(strict, calls, run, k - 1);
      assert Next(strict, calls, run[k - 1], run[k]);
      var i :| Step1(strict, calls, run[k - 1], run[k], i);
      InvStep(strict, calls, run[0].w, run[k - 1], run[k], i);
    } else {
      InitialInv(strict, calls, run[0]);
    }
  }

  lemma InitialInv(strict: bool, calls: seq<Call>, s: State)
    requires CallsOk(calls) && |s.pcs| == |calls| && forall i | 0 <= i < |calls| :: s.pcs[i] == New
    ensures Inv(strict, calls, s.w, s)
  {
    hide CallOk, Independent;
    AllSmall(calls);
  }

  /** The bytes a finished call was asked to move are where they belong, as they
      were when the run began. */
  ghost predicate Moved(c: Call, w0: World, w: World) {
    forall x: nat | x < c.len ::
      if c.dir == RdCh then w.dev(c.base + x) == w0.host(Phys(c.addr, c.pages, x))
      else w.host(Phys(c.addr, c.pages, x)) == w0.dev(c.base + x)
  }

  /** Non-interference. In every state of every interleaving, each finished call
      has had the effect it has alone, and no byte outside all calls' targets,
      lists and buffers has changed. */
  lemma NonInterference(strict: bool, calls: seq<Call>, run: seq<State>, k: nat)
    requires CallsOk(calls) && IsRun(strict, calls, run) && k < |run|
    ensures |run[k].pcs| == |calls|
    ensures forall i | 0 <= i < |calls| && run[k].pcs[i].Finished? :: Moved(calls[i], run[0].w, run[k].w)
    ensures Untouched(calls, run[0].w, run[k].w)
  {
    hide CallOk, Independent, Moved, Next, Untouched;
    AllSmall(calls);
    RunInv(strict, calls, run, k);
    forall i | 0 <= i < |calls| && run[k].pcs[i].Finished? ensures Moved(calls[i], run[0].w, run[k].w) {
      assert Inv1(strict, calls[i], run[0].w, run[k], i);
      CallSmall(calls[i]);
      FinishedMoved(strict, calls[i], run[0].w, run[k].w, run[k].pcs[i].m);
    }
  }

  lemma FinishedMoved(strict: bool, c: Call, w0: World, w: World, m: nat)
    requires CallOk(c) && Alone(strict, c, w0, m).k.Halted? && Agree(c, w, Alone(strict, c, w0, m).w)
    ensures Moved(c, w0, w)
  {
    hide Table, IsImage, JobsOf, Phys, Loaded, Pinned, DistinctPages, BufferApart;
    if c.dir == RdCh {
      InboundTransfer(w0, strict, c.base, c.addr, c.len, c.pages, c.image, c.bus, c.ptr, m);
    } else {
      OutboundTransfer(w0, strict, c.base, c.addr, c.len, c.pages, c.image, c.bus, c.ptr, m);
    }
    var r := Alone(strict, c, w0, m).w;
    forall x: nat | x < c.len
      ensures if c.dir == RdCh then w.dev(c.base + x) == w0.host(Phys(c.addr, c.pages, x))
              else w.host(Phys(c.addr, c.pages, x)) == w0.dev(c.base + x)
    {
      var l := if c.dir == RdCh then Dev(c.base + x) else Host(Phys(c.addr, c.pages, x));
      assert Touches(c, l);
      assert Get(w, l) == Get(r, l);
    }
  }
}
