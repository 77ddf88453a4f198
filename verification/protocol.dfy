/** The completion protocol as a step relation: any number of callers under
    per-channel locks and the register-window lock, the engine raising status
    bits, and the handler thread that marks channels completed, clears status and
    wakes sleepers (tranfer_desc, dma_llmode_transmit, regs_operations,
    eon_rw_reg, and hama_handle_kthread, which may scan at any time here). */
module Protocol {
  import opened Common

  /** `events` is how many times one started transfer raises status; `abandon`
      says whether a wait may end by time-out or signal; `stops`, whether every
      status raised holds the stop bit; `wakesAll`, whether every scan wakes as the
      extra one does; `gated`, whether a transfer is kept from starting between
      the handler's mark and its clear of the channel. The driver has time-outs
      compiled in, scans in both ways and gates nothing. */
  datatype Config = Config(events: nat, abandon: bool, stops: bool, wakesAll: bool, gated: bool)

  datatype Bit = Stop | Watermark | Abort

  /** `owed` and `late` count the events still owed by the current transfer and
      by earlier ones; `raised` says the current one has raised an event. */
  datatype Chan = Chan(lock: Option<nat>, st: TransferState, status: set<Bit>, owed: nat, late: nat, raised: bool)

  /** Where a caller stands. Started: state is RUNNING, the doorbell has not rung.
      Waiting: in its wait and about to look at the state. Asleep: it has found
      RUNNING, and looks again only when woken. */
  datatype Pc =
    | Idle | Want(c: nat) | Locked(c: nat) | Started(c: nat) | WantBar(c: nat) | InBar(c: nat)
    | Waiting(c: nat) | Asleep(c: nat)
    | WantBarOnly | InBarOnly

  /** The handler between its atomic steps: read a status, mark, clear, wake. The
      scan of the token loop wakes for the stop bit only, the `extra` one always. */
  datatype Handler =
    Scanning | Saw(c: nat, bits: set<Bit>, extra: bool) | Marked(c: nat, bits: set<Bit>, extra: bool) | Waking(c: nat)

  /** `premature` records that a RUNNING channel was marked completed before its
      transfer had raised anything. */
  datatype State = State(chans: seq<Chan>, callers: seq<Pc>, handler: Handler, conbar: Option<nat>, premature: bool)

  datatype Action =
    | Call(i: nat, c: nat) | Lock(i: nat) | Start(i: nat) | Ring(i: nat) | GiveUp(i: nat) | Sleep(i: nat) | Return(i: nat) | Leave(i: nat)
    | AskBar(i: nat) | TakeBar(i: nat) | DropBar(i: nat)
    | Raise(c: nat, bits: set<Bit>) | RaiseLate(c: nat, bits: set<Bit>)
    | See(c: nat, extra: bool) | Mark | Clear | Wake

  function Init(n: nat, m: nat): State {
    State(seq(n, _ => Chan(None, IDLE, {}, 0, 0, false)), seq(m, _ => Idle), Scanning, None, false)
  }

  /** The caller an action belongs to, if any. */
  function Actor(a: Action): Option<nat> {
    match a
    case Call(i, _) => Some(i) case Lock(i) => Some(i) case Start(i) => Some(i) case Ring(i) => Some(i)
    case GiveUp(i) => Some(i) case Sleep(i) => Some(i) case Return(i) => Some(i) case Leave(i) => Some(i)
    case AskBar(i) => Some(i) case TakeBar(i) => Some(i) case DropBar(i) => Some(i)
    case _ => None
  }

  predicate InWait(p: Pc, c: nat) { p == Waiting(c) || p == Asleep(c) }

  /** The handler has marked `c` and not cleared it yet. */
  predicate Uncleared(s: State, c: nat) { s.handler.Marked? && s.handler.c == c }

  predicate Enabled(cfg: Config, s: State, a: Action) {
    match a
    case Call(i, c) => i < |s.callers| && s.callers[i] == Idle && c < |s.chans|
    case Lock(i) => i < |s.callers| && s.callers[i].Want? && s.callers[i].c < |s.chans| && s.chans[s.callers[i].c].lock == None
    case Start(i) =>
      i < |s.callers| && s.callers[i].Locked? && s.callers[i].c < |s.chans| && (cfg.gated ==> !Uncleared(s, s.callers[i].c))
    case Ring(i) => i < |s.callers| && s.callers[i].Started? && s.callers[i].c < |s.chans|
    case GiveUp(i) => i < |s.callers| && s.callers[i].Started? && s.callers[i].c < |s.chans|
    case Sleep(i) =>
      i < |s.callers| && s.callers[i].Waiting? && s.callers[i].c < |s.chans| && s.chans[s.callers[i].c].st == RUNNING
    case Return(i) =>
      i < |s.callers| && s.callers[i].Waiting? && s.callers[i].c < |s.chans| && s.chans[s.callers[i].c].st != RUNNING
    case Leave(i) =>
      cfg.abandon && i < |s.callers| && (s.callers[i].Waiting? || s.callers[i].Asleep?) && s.callers[i].c < |s.chans|
    case AskBar(i) => i < |s.callers| && (s.callers[i] == Idle || s.callers[i].Started?)
    case TakeBar(i) => i < |s.callers| && (s.callers[i].WantBar? || s.callers[i].WantBarOnly?) && s.conbar == None
    case DropBar(i) => i < |s.callers| && (s.callers[i].InBar? || s.callers[i].InBarOnly?)
    case Raise(c, bits) => c < |s.chans| && s.chans[c].owed > 0 && bits != {} && (cfg.stops ==> Stop in bits)
    case RaiseLate(c, bits) => c < |s.chans| && s.chans[c].late > 0 && bits != {} && (cfg.stops ==> Stop in bits)
    case See(c, extra) =>
      s.handler.Scanning? && c < |s.chans| && s.chans[c].status != {} && (cfg.wakesAll ==> extra)
    case Mark => s.handler.Saw? && s.handler.c < |s.chans|
    case Clear => s.handler.Marked? && s.handler.c < |s.chans|
    case Wake => s.handler.Waking?
  }

  function At(s: State, i: nat, p: Pc): State
    requires i < |s.callers|
  {
    s.(callers := s.callers[i := p])
  }

  function With(s: State, c: nat, ch: Chan): State
    requires c < |s.chans|
  {
    s.(chans := s.chans[c := ch])
  }

  /** Whoever sleeps on `c` is awake again. */
  function Roused(callers: seq<Pc>, c: nat): (r: seq<Pc>)
    ensures |r| == |callers|
  {
    seq(|callers|, i requires 0 <= i < |callers| => if callers[i] == Asleep(c) then Waiting(c) else callers[i])
  }

  function Apply(cfg: Config, s: State, a: Action): State
    requires Enabled(cfg, s, a)
  {
    match a
    case Call(i, c) => At(s, i, Want(c))
    case Lock(i) =>
      var c := s.callers[i].c;
      With(At(s, i, Locked(c)), c, s.chans[c].(lock := Some(i)))
    case Start(i) =>
      var c := s.callers[i].c;
      var ch := s.chans[c];
      With(At(s, i, Started(c)), c, ch.(st := RUNNING, raised := false, late := ch.late + ch.owed, owed := 0))
    case Ring(i) =>
      var c := s.callers[i].c;
      With(At(s, i, Waiting(c)), c, s.chans[c].(owed := cfg.events))
    case GiveUp(i) =>
      var c := s.callers[i].c;
      With(At(s, i, Idle), c, s.chans[c].(lock := None))
    case Sleep(i) => At(s, i, Asleep(s.callers[i].c))
    case Return(i) =>
      var c := s.callers[i].c;
      With(At(s, i, Idle), c, s.chans[c].(lock := None))
    case Leave(i) =>
      var c := s.callers[i].c;
      With(At(s, i, Idle), c, s.chans[c].(lock := None))
    case AskBar(i) => At(s, i, if s.callers[i] == Idle then WantBarOnly else WantBar(s.callers[i].c))
    case TakeBar(i) =>
      At(s, i, if s.callers[i].WantBarOnly? then InBarOnly else InBar(s.callers[i].c)).(conbar := Some(i))
    case DropBar(i) =>
      At(s, i, if s.callers[i].InBarOnly? then Idle else Started(s.callers[i].c)).(conbar := None)
    case Raise(c, bits) =>
      var ch := s.chans[c];
      With(s, c, ch.(owed := ch.owed - 1, raised := true, status := ch.status + bits))
    case RaiseLate(c, bits) =>
      var ch := s.chans[c];
      With(s, c, ch.(late := ch.late - 1, status := ch.status + bits))
    case See(c, extra) => s.(handler := Saw(c, s.chans[c].status, extra))
    case Mark =>
      var c := s.handler.c;
      var ch := s.chans[c];
      With(s, c, ch.(st := COMPLETED)).(handler := Marked(c, s.handler.bits, s.handler.extra),
                                        premature := s.premature || (ch.st == RUNNING && !ch.raised))
    case Clear =>
      var c := s.handler.c;
      With(s, c, s.chans[c].(status := s.chans[c].status - s.handler.bits)).(handler :=
        if s.handler.extra || Stop in s.handler.bits then Waking(c) else Scanning)
    case Wake => s.(callers := Roused(s.callers, s.handler.c), handler := Scanning)
  }

  /** The state a run of enabled actions ends in, if all are. */
  function Exec(cfg: Config, s: State, acts: seq<Action>): Option<State> {
    if acts == [] then Some(s)
    else
      match Exec(cfg, s, acts[..|acts| - 1])
      case None => None
      case Some(t) =>
        if Enabled(cfg, t, acts[|acts| - 1]) then Some(Apply(cfg, t, acts[|acts| - 1])) else None
  }

  /** One more action of a run. */
  lemma Then(cfg: Config, n: nat, m: nat, acts: seq<Action>, s: State, a: Action) returns (acts': seq<Action>, s': State)
    requires Exec(cfg, Init(n, m), acts) == Some(s) && Enabled(cfg, s, a)
    ensures acts' == acts + [a] && s' == Apply(cfg, s, a) && Exec(cfg, Init(n, m), acts') == Some(s')
  {
    acts', s' := acts + [a], Apply(cfg, s, a);
    assert acts'[..|acts'| - 1] == acts;
  }

  // ---------------------------------------------------------------- locks

  predicate Holds(p: Pc, c: nat) {
    p == Locked(c) || p == Started(c) || p == WantBar(c) || p == InBar(c) || InWait(p, c)
  }

  predicate HoldsBar(p: Pc) { p.InBar? || p.InBarOnly? }

  predicate ChanOf(p: Pc, n: nat) {
    p.Idle? || p.WantBarOnly? || p.InBarOnly? || p.c < n
  }

  /** Locks and program positions agree, in every reachable state. */
  ghost predicate LockInv(s: State) {
    && (forall i | 0 <= i < |s.callers| :: ChanOf(s.callers[i], |s.chans|))
    && (forall c | 0 <= c < |s.chans| :: s.chans[c].lock.Some? ==>
          s.chans[c].lock.value < |s.callers| && Holds(s.callers[s.chans[c].lock.value], c))
    && (forall i, c | 0 <= i < |s.callers| && 0 <= c < |s.chans| :: Holds(s.callers[i], c) ==> s.chans[c].lock == Some(i))
    && (s.conbar.Some? ==> s.conbar.value < |s.callers| && HoldsBar(s.callers[s.conbar.value]))
    && (forall i | 0 <= i < |s.callers| :: HoldsBar(s.callers[i]) ==> s.conbar == Some(i))
  }

  lemma CallerMoves(s: State, i: nat, p: Pc)
    requires LockInv(s) && i < |s.callers| && ChanOf(p, |s.chans|)
    requires forall c :: Holds(p, c) == Holds(s.callers[i], c)
    requires HoldsBar(p) == HoldsBar(s.callers[i])
    ensures LockInv(At(s, i, p))
  {
  }

  lemma ChanChanges(s: State, c: nat, ch: Chan)
    requires LockInv(s) && c < |s.chans| && ch.lock == s.chans[c].lock
    ensures LockInv(With(s, c, ch))
  {
  }

  lemma LockTaken(s: State, i: nat, c: nat)
    requires LockInv(s) && i < |s.callers| && c < |s.chans| && s.callers[i] == Want(c) && s.chans[c].lock == None
    ensures LockInv(With(At(s, i, Locked(c)), c, s.chans[c].(lock := Some(i))))
  {
  }

  lemma HoldsOne(p: Pc, c: nat, c': nat)
    requires Holds(p, c) && Holds(p, c')
    ensures c == c'
  {
  }

  lemma LockFreed(s: State, i: nat, c: nat)
    requires LockInv(s) && i < |s.callers| && c < |s.chans| && Holds(s.callers[i], c) && !HoldsBar(s.callers[i])
    ensures LockInv(With(At(s, i, Idle), c, s.chans[c].(lock := None)))
  {
    forall c' ensures !Holds(Idle, c') && (Holds(s.callers[i], c') ==> c' == c) {
      if Holds(s.callers[i], c') {
        HoldsOne(s.callers[i], c, c');
      }
    }
    hide Holds;
  }

  lemma BarTaken(s: State, i: nat, p: Pc)
    requires LockInv(s) && i < |s.callers| && ChanOf(p, |s.chans|) && s.conbar == None && HoldsBar(p)
    requires forall c :: Holds(p, c) == Holds(s.callers[i], c)
    ensures LockInv(At(s, i, p).(conbar := Some(i)))
  {
    hide Holds;
  }

  lemma BarDropped(s: State, i: nat, p: Pc)
    requires LockInv(s) && i < |s.callers| && ChanOf(p, |s.chans|) && HoldsBar(s.callers[i]) && !HoldsBar(p)
    requires forall c :: Holds(p, c) == Holds(s.callers[i], c)
    ensures LockInv(At(s, i, p).(conbar := None))
  {
    hide Holds;
  }

  lemma SameLocks(s: State, s': State)
    requires LockInv(s) && s'.chans == s.chans && s'.callers == s.callers && s'.conbar == s.conbar
    ensures LockInv(s')
    ensures forall i | 0 <= i < |s.callers| :: ChanOf(s.callers[i], |s.chans|)
  {
  }

  /** A caller's step that moves no lock. */
  lemma PlaceStep(cfg: Config, s: State, a: Action)
    requires LockInv(s) && Enabled(cfg, s, a) && (a.Call? || a.Start? || a.Ring? || a.Sleep? || a.AskBar?)
    ensures LockInv(Apply(cfg, s, a))
    ensures |Apply(cfg, s, a).chans| == |s.chans| && |Apply(cfg, s, a).callers| == |s.callers|
  {
    hide LockInv;
    var s' := Apply(cfg, s, a);
    SameLocks(s, s);
    CallerMoves(s, a.i, s'.callers[a.i]);
    if a.Start? || a.Ring? {
      var c := s.callers[a.i].c;
      ChanChanges(At(s, a.i, s'.callers[a.i]), c, s'.chans[c]);
    }
  }

  lemma CallerLockStep(cfg: Config, s: State, a: Action)
    requires LockInv(s) && Enabled(cfg, s, a) && Actor(a).Some?
    ensures LockInv(Apply(cfg, s, a))
    ensures |Apply(cfg, s, a).chans| == |s.chans| && |Apply(cfg, s, a).callers| == |s.callers|
  {
    hide LockInv;
    var s' := Apply(cfg, s, a);
    SameLocks(s, s);
    match a
    case Lock(i) => LockTaken(s, i, s.callers[i].c);
    case GiveUp(i) => LockFreed(s, i, s.callers[i].c);
    case Return(i) => LockFreed(s, i, s.callers[i].c);
    case Leave(i) => LockFreed(s, i, s.callers[i].c);
    case TakeBar(i) => BarTaken(s, i, s'.callers[i]);
    case DropBar(i) => BarDropped(s, i, s'.callers[i]);
    case _ => PlaceStep(cfg, s, a);
  }

  lemma LockStep(cfg: Config, s: State, a: Action)
    requires LockInv(s) && Enabled(cfg, s, a)
    ensures LockInv(Apply(cfg, s, a))
    ensures |Apply(cfg, s, a).chans| == |s.chans| && |Apply(cfg, s, a).callers| == |s.callers|
  {
    if Actor(a).Some? {
      hide LockInv, Enabled, Apply;
      CallerLockStep(cfg, s, a);
    } else {
      hide LockInv;
      var s' := Apply(cfg, s, a);
      match a
      case Raise(c, _) => ChanChanges(s, c, s'.chans[c]);
      case RaiseLate(c, _) => ChanChanges(s, c, s'.chans[c]);
      case See(_, _) => SameLocks(s, s');
      case Mark =>
        ChanChanges(s, s.handler.c, s'.chans[s.handler.c]);
        SameLocks(With(s, s.handler.c, s'.chans[s.handler.c]), s');
      case Clear =>
        ChanChanges(s, s.handler.c, s'.chans[s.handler.c]);
        SameLocks(With(s, s.handler.c, s'.chans[s.handler.c]), s');
      case Wake => SleepersRoused(s, s.handler.c);
    }
  }

  lemma SleepersRoused(s: State, c: nat)
    requires LockInv(s)
    ensures LockInv(s.(callers := Roused(s.callers, c), handler := Scanning))
  {
  }

  lemma InitLocks(n: nat, m: nat)
    ensures LockInv(Init(n, m))
  {
  }

  lemma {:induction false} ReachableLocks(cfg: Config, n: nat, m: nat, acts: seq<Action>, s: State)
    requires Exec(cfg, Init(n, m), acts) == Some(s)
    ensures LockInv(s) && |s.chans| == n && |s.callers| == m
  {
    hide LockInv, Enabled, Apply;
    InitLocks(n, m);
    if acts != [] {
      var t := Exec(cfg, Init(n, m), acts[..|acts| - 1]).value;
      ReachableLocks(cfg, n, m, acts[..|acts| - 1], t);
      LockStep(cfg, t, acts[|acts| - 1]);
    }
  }

  /** Caller `i` is blocked on a lock that `j` holds. */
  ghost predicate WaitsFor(s: State, i: nat, j: nat) {
    && i < |s.callers|
    && (match s.callers[i]
        case Want(c) => c < |s.chans| && s.chans[c].lock == Some(j)
        case WantBar(_) => s.conbar == Some(j)
        case WantBarOnly => s.conbar == Some(j)
        case _ => false)
  }

  function Rank(p: Pc): nat {
    if p.Want? then 2 else if p.WantBar? || p.WantBarOnly? then 1 else 0
  }

  /** No cyclic wait: following who waits for whom, the rank falls at each step, so
      a chain has at most three callers and never returns to its start. */
  lemma {:induction false} NoCyclicWait(s: State, chain: seq<nat>)
    requires LockInv(s) && |chain| >= 2
    requires forall k | 0 <= k < |chain| - 1 :: WaitsFor(s, chain[k], chain[k + 1])
    ensures |chain| <= 3 && chain[0] != chain[|chain| - 1]
    ensures chain[0] < |s.callers| && chain[|chain| - 1] < |s.callers|
    ensures Rank(s.callers[chain[|chain| - 1]]) + |chain| - 1 <= Rank(s.callers[chain[0]])
  {
    assert WaitsFor(s, chain[0], chain[0 + 1]);
    if |chain| > 2 {
      forall k | 0 <= k < |chain[1..]| - 1 ensures WaitsFor(s, chain[1..][k], chain[1..][k + 1]) {
        assert WaitsFor(s, chain[k + 1], chain[k + 1 + 1]);
      }
      NoCyclicWait(s, chain[1..]);
    }
  }
}
