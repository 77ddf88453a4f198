/** The handler thread of eon_drv.c and its interrupt handler: it spends fifo
    tokens, marks channels completed, clears their status and wakes waiters. Slot
    2i is read channel i and slot 2i + 1 write channel i, the order of a scan. */
module Handler {
  import opened Common

  predicate IsPending(irq: bv32) { irq & 7 != 0 }

  predicate HasStop(irq: bv32) { irq & 1 == 1 }

  function Or(a: bv32, b: bv32): bv32 { a | b }

  function One(b: bool): nat { if b then 1 else 0 }

  /** Stop, watermark or abort alone is enough to have a slot marked. */
  lemma PendingBits(irq: bv32)
    ensures IsPending(irq) <==> irq & 1 == 1 || irq & 2 == 2 || irq & 4 == 4
  {
  }

  /** Tokens spent are the set bits among stop and watermark; an abort alone spends
      none. */
  lemma TokenBits(irq: bv32)
    ensures TokensFor(irq) == One(irq & 1 == 1) + One(irq & 2 == 2)
  {
  }

  /** Indices of the true flags among the first `k`, in order. */
  function Marked(flags: seq<bool>, k: nat): (p: seq<nat>)
    requires k <= |flags|
    ensures |p| <= k
  {
    if k == 0 then [] else Marked(flags, k - 1) + if flags[k - 1] then [k - 1] else []
  }

  /** Exactly the flagged indices, each once, in order. */
  lemma {:induction false} MarkedExactly(flags: seq<bool>, k: nat)
    requires k <= |flags|
    ensures forall slot :: slot in Marked(flags, k) <==> 0 <= slot < k && flags[slot]
    ensures forall i, j | 0 <= i < j < |Marked(flags, k)| :: Marked(flags, k)[i] < Marked(flags, k)[j]
  {
    if k > 0 {
      MarkedExactly(flags, k - 1);
      var p := Marked(flags, k - 1);
      assert forall i | 0 <= i < |p| :: p[i] in p;
    }
  }

  function Flags(status: seq<bv32>): (f: seq<bool>)
    ensures |f| == |status|
  {
    seq(|status|, i requires 0 <= i < |status| => IsPending(status[i]))
  }

  /** The pending slots in scan order. */
  function Pending(status: seq<bv32>): seq<nat> { Marked(Flags(status), |status|) }

  lemma {:induction false} NoneMarked(flags: seq<bool>, k: nat)
    requires k <= |flags| && forall slot | 0 <= slot < k :: !flags[slot]
    ensures Marked(flags, k) == []
  {
    if k > 0 {
      NoneMarked(flags, k - 1);
    }
  }

  /** Clearing the first flag takes it off the front of the list. */
  lemma {:induction false} UnmarkFirst(flags: seq<bool>, slot: nat, k: nat)
    requires slot < k <= |flags| && flags[slot] && forall s | 0 <= s < slot :: !flags[s]
    ensures Marked(flags, k) == [slot] + Marked(flags[slot := false], k)
  {
    if k == slot + 1 {
      NoneMarked(flags, slot);
      NoneMarked(flags[slot := false], k);
    } else {
      UnmarkFirst(flags, slot, k - 1);
    }
  }

  lemma ClearFirst(status: seq<bv32>, slot: nat, v: bv32)
    requires slot < |status| && IsPending(status[slot]) && !IsPending(v)
    requires forall s | 0 <= s < slot :: !IsPending(status[s])
    ensures Pending(status) == [slot] + Pending(status[slot := v])
  {
    hide IsPending;
    assert Flags(status[slot := v]) == Flags(status)[slot := false];
    UnmarkFirst(Flags(status), slot, |status|);
  }

  lemma NonePending(status: seq<bv32>)
    requires forall slot | 0 <= slot < |status| :: !IsPending(status[slot])
    ensures Pending(status) == []
  {
    hide IsPending;
    NoneMarked(Flags(status), |status|);
  }

  lemma Cleared(irq: bv32)
    ensures !IsPending(irq & !irq)
  {
  }

  /** Tokens an event consumes: two for stop and watermark together, one for
      either, none for an abort alone. */
  function TokensFor(irq: bv32): nat {
    if irq & 3 == 3 then 2 else if irq & 3 == 0 then 0 else 1
  }

  function Less(fifo: nat, n: nat): nat { if n <= fifo then fifo - n else 0 }

  /** Exactly the slots in `done` have been completed and cleared. */
  ghost predicate Completes(status: seq<bv32>, state: seq<TransferState>, status': seq<bv32>, state': seq<TransferState>,
                            done: seq<nat>)
  {
    && |status'| == |status| && |state'| == |state| == |status|
    && forall s | 0 <= s < |status| ::
         if s in done then status'[s] == 0 && state'[s] == COMPLETED
         else status'[s] == status[s] && state'[s] == state[s]
  }

  lemma CompletesMore(status: seq<bv32>, state: seq<TransferState>, status': seq<bv32>, state': seq<TransferState>,
                      status'': seq<bv32>, state'': seq<TransferState>, a: seq<nat>, b: seq<nat>)
    requires Completes(status, state, status', state', a) && Completes(status', state', status'', state'', b)
    ensures Completes(status, state, status'', state'', a + b)
  {
  }

  predicate StopBit(status: seq<bv32>, slot: nat) { slot < |status| && HasStop(status[slot]) }

  /** Of the completed `slots`, those whose waiters are woken, in order: the ones
      whose status held the stop bit, and the ones an extra scan completed. */
  function Wakes(status: seq<bv32>, slots: seq<nat>, extra: set<nat>): seq<nat> {
    if slots == [] then []
    else
      var slot := slots[|slots| - 1];
      Wakes(status, slots[..|slots| - 1], extra) + if StopBit(status, slot) || slot in extra then [slot] else []
  }

  lemma {:induction false} WakesBound(status: seq<bv32>, slots: seq<nat>, extra: set<nat>)
    ensures |Wakes(status, slots, extra)| <= |slots|
  {
    if slots != [] {
      WakesBound(status, slots[..|slots| - 1], extra);
    }
  }

  /** Every completed slot's waiter is woken, exactly when each one's status held
      the stop bit or an extra scan completed it. */
  lemma {:induction false} AllWoken(status: seq<bv32>, slots: seq<nat>, extra: set<nat>)
    ensures Wakes(status, slots, extra) == slots <==> forall slot | slot in slots :: StopBit(status, slot) || slot in extra
  {
    if slots != [] {
      var front, slot := slots[..|slots| - 1], slots[|slots| - 1];
      AllWoken(status, front, extra);
      WakesBound(status, front, extra);
      assert slots == front + [slot];
      if Wakes(status, slots, extra) == slots {
        assert StopBit(status, slot) || slot in extra;
        assert Wakes(status, front, extra) == (Wakes(status, front, extra) + [slot])[..|front|];
      }
    }
  }

  /** Wakes of two stretches, the second from the status the first one left. */
  lemma {:induction false} WakesMore(status: seq<bv32>, status': seq<bv32>, a: seq<nat>, x: set<nat>, b: seq<nat>, y: set<nat>)
    requires |status'| == |status| && forall slot | slot in b :: slot < |status| ==> status'[slot] == status[slot]
    requires forall slot | slot in a :: slot !in y
    requires forall slot | slot in b :: slot !in x
    ensures Wakes(status, a + b, x + y) == Wakes(status, a, x) + Wakes(status', b, y)
  {
    if b == [] {
      if a == [] {
        assert a + b == [];
      } else {
        var front := a[..|a| - 1];
        assert a + b == a && front + b == front;
        WakesMore(status, status', front, x, b, y);
      }
    } else {
      var front := b[..|b| - 1];
      assert (a + b)[..|a + b| - 1] == a + front;
      WakesMore(status, status', a, x, front, y);
    }
  }

  /** The first `k` pending slots have been completed and cleared, and nothing else. */
  ghost predicate Drained(status: seq<bv32>, state: seq<TransferState>, status': seq<bv32>, state': seq<TransferState>, k: nat)
  {
    && k <= |Pending(status)| && Pending(status') == Pending(status)[k..]
    && Completes(status, state, status', state', Pending(status)[..k])
  }

  /** Two stretches of draining are one, and their wake-ups follow each other. */
  lemma DrainMore(st0: seq<bv32>, sa0: seq<TransferState>, st1: seq<bv32>, sa1: seq<TransferState>, k: nat, x: set<nat>,
                  st2: seq<bv32>, sa2: seq<TransferState>, j: nat, y: set<nat>)
    requires Drained(st0, sa0, st1, sa1, k) && (forall slot | slot in x :: slot in Pending(st0)[..k])
    requires Drained(st1, sa1, st2, sa2, j) && (forall slot | slot in y :: slot in Pending(st1)[..j])
    ensures Drained(st0, sa0, st2, sa2, k + j) && Pending(st0)[..k + j] == Pending(st0)[..k] + Pending(st1)[..j]
    ensures Wakes(st0, Pending(st0)[..k + j], x + y) == Wakes(st0, Pending(st0)[..k], x) + Wakes(st1, Pending(st1)[..j], y)
    ensures forall slot | slot in x + y :: slot in Pending(st0)[..k + j]
  {
    var all := Pending(st0);
    PendingExactly(st0);
    hide Pending;
    var a, b := all[..k], all[k..][..j];
    assert all[..k + j] == a + b;
    CompletesMore(st0, sa0, st1, sa1, st2, sa2, a, b);
    forall slot | slot in b ensures slot !in a && slot !in x {
      var i :| 0 <= i < j && b[i] == slot;
      assert all[k + i] == slot;
    }
    WakesMore(st0, st1, a, x, b, y);
  }

  /** Completing the first pending slot drains one. */
  lemma DrainOne(status: seq<bv32>, state: seq<TransferState>, slot: nat, extra: set<nat>)
    requires |state| == |status| && slot < |status| && extra <= {slot}
    requires [slot] + Pending(status[slot := 0]) == Pending(status)
    ensures Drained(status, state, status[slot := 0], state[slot := COMPLETED], 1) && Pending(status)[..1] == [slot]
    ensures Wakes(status, Pending(status)[..1], extra) == if StopBit(status, slot) || slot in extra then [slot] else []
  {
    hide Pending;
    assert Pending(status)[..1] == [slot];
  }

  // ------------------------------------------------------------ interrupts

  /** A channel raises status bits, with an interrupt. */
  datatype Event = Event(slot: nat, bits: bv32)

  /** How many of the events make `slot` pending. */
  function Raises(events: seq<Event>, slot: nat): nat {
    if events == [] then 0
    else
      var e := events[|events| - 1];
      Raises(events[..|events| - 1], slot) + One(e.slot == slot && IsPending(e.bits))
  }

  /** All events of the first turns of a schedule, in order. */
  function Flat(schedule: seq<seq<Event>>): seq<Event> {
    if schedule == [] then [] else Flat(schedule[..|schedule| - 1]) + schedule[|schedule| - 1]
  }

  /** What the slot was due before and was raised for since, and what it was
      marked for and is due now. */
  function Due(before: seq<bv32>, events: seq<Event>, slot: nat): nat
    requires slot < |before|
  {
    One(IsPending(before[slot])) + Raises(events, slot)
  }

  function Paid(after: seq<bv32>, marks: seq<nat>, slot: nat): nat
    requires slot < |after|
  {
    One(IsPending(after[slot])) + multiset(marks)[slot]
  }

  /** No event is lost and none is made up: a slot has been marked since or is
      pending exactly when it was pending or raised, and is marked no more often. */
  ghost predicate Accounts(before: seq<bv32>, events: seq<Event>, after: seq<bv32>, marks: seq<nat>) {
    |after| == |before| && forall slot | 0 <= slot < |before| ::
      Paid(after, marks, slot) <= Due(before, events, slot) && (Paid(after, marks, slot) == 0 ==> Due(before, events, slot) == 0)
  }

  lemma OrPending(a: bv32, b: bv32)
    ensures IsPending(Or(a, b)) <==> IsPending(a) || IsPending(b)
  {
  }

  lemma RaisesMore(events: seq<Event>, e: Event, slot: nat)
    ensures Raises(events + [e], slot) == Raises(events, slot) + One(e.slot == slot && IsPending(e.bits))
  {
    hide IsPending;
    assert (events + [e])[..|events|] == events;
  }

  /** `v` is what the register holds once the event's bits are set in it. */
  lemma AccountsRaise(before: seq<bv32>, events: seq<Event>, after: seq<bv32>, marks: seq<nat>, e: Event, v: bv32)
    requires Accounts(before, events, after, marks) && e.slot < |after|
    requires IsPending(v) <==> IsPending(after[e.slot]) || IsPending(e.bits)
    ensures Accounts(before, events + [e], after[e.slot := v], marks)
  {
    hide IsPending, Raises;
    forall slot | 0 <= slot < |before|
      ensures Paid(after[e.slot := v], marks, slot) <= Due(before, events + [e], slot)
      ensures Paid(after[e.slot := v], marks, slot) == 0 ==> Due(before, events + [e], slot) == 0
    {
      RaisesMore(events, e, slot);
      assert Paid(after, marks, slot) <= Due(before, events, slot);
    }
  }

  lemma AccountsMark(before: seq<bv32>, events: seq<Event>, after: seq<bv32>, marks: seq<nat>, slot: nat)
    requires Accounts(before, events, after, marks) && slot < |after| && IsPending(after[slot])
    ensures Accounts(before, events, after[slot := 0], marks + [slot])
  {
    var zero: bv32 := 0;
    assert !IsPending(zero);
    hide IsPending;
  }

  /** One thing that happens to the status registers: a channel raises bits, or the
      handler marks a slot, having read `bits`, and clears it. `extra` tells the
      extra scan's marks from the token loop's. */
  datatype Happening = Raised(e: Event) | Done(slot: nat, bits: bv32, extra: bool)

  /** The status registers after what has happened, in order. */
  function Replay(before: seq<bv32>, trace: seq<Happening>): (r: seq<bv32>)
    ensures |r| == |before|
  {
    if trace == [] then before
    else
      var r := Replay(before, trace[..|trace| - 1]);
      match trace[|trace| - 1]
      case Raised(e) => if e.slot < |r| then r[e.slot := Or(r[e.slot], e.bits)] else r
      case Done(slot, _, _) => if slot < |r| then r[slot := 0] else r
  }

  /** Each mark read the bits its register held by then, and found it pending. */
  ghost predicate Sound(before: seq<bv32>, trace: seq<Happening>) {
    trace == [] ||
    (Sound(before, trace[..|trace| - 1]) &&
     var r := Replay(before, trace[..|trace| - 1]);
     match trace[|trace| - 1]
     case Raised(e) => e.slot < |r|
     case Done(slot, bits, _) => slot < |r| && bits == r[slot] && IsPending(bits))
  }

  function EventsOf(trace: seq<Happening>): seq<Event> {
    if trace == [] then []
    else EventsOf(trace[..|trace| - 1]) + if trace[|trace| - 1].Raised? then [trace[|trace| - 1].e] else []
  }

  /** The slots marked, in order. */
  function MarksOf(trace: seq<Happening>): seq<nat> {
    if trace == [] then []
    else MarksOf(trace[..|trace| - 1]) + if trace[|trace| - 1].Done? then [trace[|trace| - 1].slot] else []
  }

  /** Those whose waiters are woken: for a stop bit read, or by the extra scan. */
  function WokenOf(trace: seq<Happening>): seq<nat> {
    if trace == [] then []
    else
      var last := trace[|trace| - 1];
      WokenOf(trace[..|trace| - 1]) + if last.Done? && (last.extra || HasStop(last.bits)) then [last.slot] else []
  }

  /** The fifo after what has happened: one token in for each interrupt, unless the
      4096 bytes are full, and those of its bits out for each mark. */
  function Tokens(fifo: nat, trace: seq<Happening>): nat {
    if trace == [] then fifo
    else
      var f := Tokens(fifo, trace[..|trace| - 1]);
      match trace[|trace| - 1]
      case Raised(_) => Min(f + 1, 4096)
      case Done(_, bits, _) => Less(f, TokensFor(bits))
  }

  lemma TokensMore(fifo: nat, trace: seq<Happening>, x: Happening)
    ensures Tokens(fifo, trace + [x]) ==
      if x.Raised? then Min(Tokens(fifo, trace) + 1, 4096) else Less(Tokens(fifo, trace), TokensFor(x.bits))
  {
    hide TokensFor;
    assert (trace + [x])[..|trace + [x]| - 1] == trace;
  }

  lemma OneMore(before: seq<bv32>, trace: seq<Happening>, x: Happening)
    ensures (trace + [x])[..|trace + [x]| - 1] == trace
    ensures EventsOf(trace + [x]) == EventsOf(trace) + if x.Raised? then [x.e] else []
    ensures MarksOf(trace + [x]) == MarksOf(trace) + if x.Done? then [x.slot] else []
    ensures WokenOf(trace + [x]) == WokenOf(trace) + if x.Done? && (x.extra || HasStop(x.bits)) then [x.slot] else []
  {
    assert (trace + [x])[..|trace + [x]| - 1] == trace;
  }

  lemma OneRaise(before: seq<bv32>, trace: seq<Happening>, e: Event, v: bv32)
    requires Sound(before, trace) && e.slot < |before| && v == Or(Replay(before, trace)[e.slot], e.bits)
    ensures Sound(before, trace + [Raised(e)])
    ensures Replay(before, trace + [Raised(e)]) == Replay(before, trace)[e.slot := v]
  {
    hide IsPending, Or;
    OneMore(before, trace, Raised(e));
  }

  lemma OneMark(before: seq<bv32>, trace: seq<Happening>, slot: nat, extra: bool)
    requires Sound(before, trace) && slot < |before| && IsPending(Replay(before, trace)[slot])
    ensures var x := Done(slot, Replay(before, trace)[slot], extra);
      Sound(before, trace + [x]) && Replay(before, trace + [x]) == Replay(before, trace)[slot := 0]
  {
    hide IsPending;
    OneMore(before, trace, Done(slot, Replay(before, trace)[slot], extra));
  }

  /** No event is lost or made up in any sound trace. */
  lemma {:induction false} SoundAccounts(before: seq<bv32>, trace: seq<Happening>)
    requires Sound(before, trace)
    ensures Accounts(before, EventsOf(trace), Replay(before, trace), MarksOf(trace))
  {
    hide IsPending, Accounts, Or;
    if trace == [] {
      AccountsNone(before);
    } else {
      var front := trace[..|trace| - 1];
      SoundAccounts(before, front);
      match trace[|trace| - 1]
      case Raised(e) =>
        var r := Replay(before, front);
        OrPending(r[e.slot], e.bits);
        AccountsRaise(before, EventsOf(front), r, MarksOf(front), e, Or(r[e.slot], e.bits));
        assert EventsOf(trace) == EventsOf(front) + [e] && MarksOf(trace) == MarksOf(front);
      case Done(slot, bits, _) =>
        AccountsMark(before, EventsOf(front), Replay(before, front), MarksOf(front), slot);
        assert EventsOf(trace) == EventsOf(front) && MarksOf(trace) == MarksOf(front) + [slot];
    }
  }

  /** Every status the slot ever shows holds the stop bit. */
  ghost predicate AlwaysStops(before: seq<bv32>, events: seq<Event>, slot: nat) {
    && (slot < |before| && IsPending(before[slot]) ==> HasStop(before[slot]))
    && forall e | e in events && e.slot == slot && IsPending(e.bits) :: HasStop(e.bits)
  }

  lemma OrStop(a: bv32, b: bv32)
    requires (IsPending(a) ==> HasStop(a)) && (IsPending(b) ==> HasStop(b))
    ensures IsPending(Or(a, b)) ==> HasStop(Or(a, b))
  {
  }

  /** The last thing that happened, taken off. */
  lemma LastOf(before: seq<bv32>, trace: seq<Happening>) returns (front: seq<Happening>, x: Happening)
    requires trace != [] && Sound(before, trace)
    ensures trace == front + [x] && |front| < |trace| && Sound(before, front)
    ensures EventsOf(trace) == EventsOf(front) + if x.Raised? then [x.e] else []
    ensures MarksOf(trace) == MarksOf(front) + if x.Done? then [x.slot] else []
    ensures WokenOf(trace) == WokenOf(front) + if x.Done? && (x.extra || HasStop(x.bits)) then [x.slot] else []
    ensures x.Raised? ==> x.e.slot < |before|
    ensures x.Raised? ==>
      Replay(before, trace) == Replay(before, front)[x.e.slot := Or(Replay(before, front)[x.e.slot], x.e.bits)]
    ensures x.Done? ==> x.slot < |before| && x.bits == Replay(before, front)[x.slot] && IsPending(x.bits)
    ensures x.Done? ==> Replay(before, trace) == Replay(before, front)[x.slot := 0]
  {
    hide Or, HasStop, IsPending;
    front, x := trace[..|trace| - 1], trace[|trace| - 1];
  }

  /** A slot whose every raise holds the stop bit is woken each time it is marked. */
  lemma {:induction false} StopsWake(before: seq<bv32>, trace: seq<Happening>, slot: nat)
    requires Sound(before, trace) && slot < |before| && AlwaysStops(before, EventsOf(trace), slot)
    ensures IsPending(Replay(before, trace)[slot]) ==> HasStop(Replay(before, trace)[slot])
    ensures multiset(WokenOf(trace))[slot] == multiset(MarksOf(trace))[slot]
    decreases |trace|
  {
    if trace != [] {
      var zero: bv32 := 0;
      assert !IsPending(zero);
      hide IsPending, HasStop, Or, Sound, Replay, EventsOf, MarksOf, WokenOf;
      var front, x := LastOf(before, trace);
      StopsWake(before, front, slot);
      if x.Raised? && x.e.slot == slot {
        assert x.e in EventsOf(trace);
        OrStop(Replay(before, front)[slot], x.e.bits);
      }
    }
  }

  /** No status the slot ever shows holds the stop bit, and no extra scan marks it. */
  ghost predicate NeverStops(before: seq<bv32>, trace: seq<Happening>, slot: nat) {
    && (slot < |before| ==> !HasStop(before[slot]))
    && (forall e | e in EventsOf(trace) && e.slot == slot :: !HasStop(e.bits))
    && forall x | x in trace && x.Done? && x.slot == slot :: !x.extra
  }

  lemma OrNoStop(a: bv32, b: bv32)
    requires !HasStop(a) && !HasStop(b)
    ensures !HasStop(Or(a, b))
  {
  }

  /** And one that no raise and no extra scan helps is never woken. */
  lemma {:induction false} NoStopSleeps(before: seq<bv32>, trace: seq<Happening>, slot: nat)
    requires Sound(before, trace) && slot < |before| && NeverStops(before, trace, slot)
    ensures !HasStop(Replay(before, trace)[slot]) && slot !in WokenOf(trace)
    decreases |trace|
  {
    if trace != [] {
      var zero: bv32 := 0;
      assert !HasStop(zero);
      hide IsPending, HasStop, Or, Sound, Replay, EventsOf, MarksOf, WokenOf;
      var front, x := LastOf(before, trace);
      NoStopSleeps(before, front, slot);
      if x.Raised? && x.e.slot == slot {
        assert x.e in EventsOf(trace);
        OrNoStop(Replay(before, front)[slot], x.e.bits);
      }
    } else {
      hide HasStop;
    }
  }

  /** What the trace's marks make of the channel states. */
  ghost predicate StatesAfter(before: seq<TransferState>, after: seq<TransferState>, marked: seq<nat>) {
    |after| == |before| && forall s | 0 <= s < |before| :: after[s] == if s in marked then COMPLETED else before[s]
  }

  /** Tokens the token loop spends on the slots it completes. */
  function Spent(status: seq<bv32>, slots: seq<nat>): nat {
    if slots == [] then 0
    else
      var slot := slots[|slots| - 1];
      Spent(status, slots[..|slots| - 1]) + if slot < |status| then TokensFor(status[slot]) else 0
  }

  lemma SpentOne(status: seq<bv32>, slots: seq<nat>, slot: nat)
    requires slot < |status|
    ensures Spent(status, slots + [slot]) == Spent(status, slots) + TokensFor(status[slot])
  {
    hide TokensFor;
    assert (slots + [slot])[..|slots|] == slots;
  }

  class HandlerThread {
    var status: seq<bv32>
    var state: seq<TransferState>
    var fifo: nat
    var loops: nat
    var flag: bv32
    var stop: bool
    /** Slots in the order they were marked completed, and in the order woken. */
    var marks: seq<nat>
    var wakes: seq<nat>

    ghost predicate Shaped()
      reads this
    {
      |status| == |state| && |status| % 2 == 0
    }

    ghost predicate Valid()
      reads this
    {
      Shaped() && fifo <= 4096 && loops < 32
    }

    /** dma_isr_handler: one token, dropped when the fifo's 4096 bytes are full. */
    method DmaIsrHandler()
      requires Valid()
      modifies this`fifo
      ensures Valid() && fifo == Min(old(fifo) + 1, 4096)
    {
      if fifo < 4096 {
        fifo := fifo + 1;
      }
    }

    /** A channel sets status bits and interrupts. */
    method Interrupt(e: Event) returns (v: bv32)
      requires Valid() && e.slot < |status|
      modifies this`status, this`fifo
      ensures Valid() && v == Or(old(status)[e.slot], e.bits) && status == old(status)[e.slot := v]
      ensures IsPending(v) <==> IsPending(old(status)[e.slot]) || IsPending(e.bits)
      ensures fifo == Min(old(fifo) + 1, 4096)
    {
      v := Or(status[e.slot], e.bits);
      OrPending(status[e.slot], e.bits);
      status := status[e.slot := v];
      DmaIsrHandler();
    }

    /** The events of one moment, after the `trace` so far. */
    method Interrupts(events: seq<Event>, ghost before: seq<bv32>, ghost f0: nat, ghost trace: seq<Happening>)
      returns (ghost trace': seq<Happening>)
      requires Valid() && forall i | 0 <= i < |events| :: events[i].slot < |status|
      requires Sound(before, trace) && status == Replay(before, trace) && fifo == Tokens(f0, trace)
      modifies this`status, this`fifo
      ensures Valid() && |status| == |old(status)|
      ensures Sound(before, trace') && status == Replay(before, trace') && fifo == Tokens(f0, trace')
      ensures EventsOf(trace') == EventsOf(trace) + events
      ensures MarksOf(trace') == MarksOf(trace) && WokenOf(trace') == WokenOf(trace)
      ensures NoExtra(trace) ==> NoExtra(trace')
    {
      hide IsPending, Sound, Replay, EventsOf, MarksOf, WokenOf, Tokens;
      trace' := trace;
      for i := 0 to |events|
        invariant Valid() && |status| == |old(status)|
        invariant Sound(before, trace') && status == Replay(before, trace') && fifo == Tokens(f0, trace')
        invariant EventsOf(trace') == EventsOf(trace) + events[..i]
        invariant MarksOf(trace') == MarksOf(trace) && WokenOf(trace') == WokenOf(trace)
        invariant NoExtra(trace) ==> NoExtra(trace')
      {
        var v := Interrupt(events[i]);
        OneRaise(before, trace', events[i], v);
        OneMore(before, trace', Raised(events[i]));
        TokensMore(f0, trace', Raised(events[i]));
        assert events[..i] + [events[i]] == events[..i + 1];
        trace' := trace' + [Raised(events[i])];
      }
      assert events[..|events|] == events;
    }

    method Pop()
      modifies this`fifo
      ensures fifo == Less(old(fifo), 1)
    {
      if fifo >= 1 {
        fifo := fifo - 1;
      }
    }

    /** Marks `slot` completed, then clears the bits that were read. */
    method Complete(slot: nat, irq: bv32)
      requires Shaped() && slot < |status| && irq == status[slot]
      modifies this`status, this`state, this`marks
      ensures status == old(status)[slot := irq & !irq] && state == old(state)[slot := COMPLETED]
      ensures marks == old(marks) + [slot]
    {
      state := state[slot := COMPLETED];
      marks := marks + [slot];
      status := status[slot := status[slot] & !irq];
    }

    /** One scan over all channels: completes the first pending slot, if any. */
    method CompleteFirst() returns (found: bool, slot: nat, irq: bv32)
      requires Shaped()
      modifies this`status, this`state, this`marks
      ensures Shaped() && |status| == |old(status)|
      ensures found <==> Pending(old(status)) != []
      ensures !found ==> status == old(status) && state == old(state) && marks == old(marks)
      ensures found ==> [slot] + Pending(status) == Pending(old(status)) && slot < |status|
      ensures found ==> irq == old(status)[slot] && status == old(status)[slot := 0]
      ensures found ==> state == old(state)[slot := COMPLETED] && marks == old(marks) + [slot]
    {
      hide Pending, Marked, Flags;
      found, slot, irq := false, 0, 0;
      for i := 0 to |status| / 2
        invariant !found && status == old(status) && state == old(state) && marks == old(marks)
        invariant forall s | 0 <= s < 2 * i :: !IsPending(status[s])
      {
        irq := status[2 * i];
        if IsPending(irq) {
          Cleared(irq);
          ClearFirst(status, 2 * i, irq & !irq);
          Complete(2 * i, irq);
          return true, 2 * i, irq;
        }
        irq := status[2 * i + 1];
        if IsPending(irq) {
          Cleared(irq);
          ClearFirst(status, 2 * i + 1, irq & !irq);
          Complete(2 * i + 1, irq);
          return true, 2 * i + 1, irq;
        }
      }
      NonePending(status);
    }

    /** The body of the token loop. `quit` says whether it breaks out. */
    method Turn() returns (found: bool, slot: nat, quit: bool)
      requires Valid() && flag == 0
      modifies this`status, this`state, this`marks, this`wakes, this`fifo, this`loops, this`flag
      ensures Valid() && flag == 0 && |status| == |old(status)|
      ensures found <==> Pending(old(status)) != []
      ensures found ==> [slot] + Pending(status) == Pending(old(status)) && slot < |status|
      ensures found ==> state == old(state)[slot := COMPLETED] && marks == old(marks) + [slot] && loops == 0
      ensures found ==> status == old(status)[slot := 0]
      ensures found ==> wakes == old(wakes) + if HasStop(old(status)[slot]) then [slot] else []
      ensures found ==> fifo == Less(old(fifo), TokensFor(old(status)[slot]))
      ensures !found ==> status == old(status) && state == old(state) && marks == old(marks) && wakes == old(wakes)
      ensures !found ==> (loops, fifo) == if old(loops) + 1 >= 32 then (0, Less(old(fifo), 1)) else (old(loops) + 1, old(fifo))
      ensures quit <==> stop || (!found && old(loops) + 1 >= 32)
    {
      loops := loops + 1;
      var irq;
      found, slot, irq := CompleteFirst();
      if found {
        flag := irq & 3;
        if flag & 1 == 1 {
          wakes := wakes + [slot];
        }
        loops := 0;
      }
      LowBits(irq);
      if flag == 3 {
        Pop();
        Pop();
        flag := 0;
      }
      if flag == 2 || flag == 1 {
        Pop();
        flag := 0;
      }
      if loops >= 32 {
        Pop();
        loops := 0;
        return found, slot, true;
      }
      return found, slot, stop;
    }

    /** The token loop, from any fifo, status and loop count. It ends: a turn
        either completes a pending slot or counts towards 32. `k` slots get
        completed, the first ones in scan order, each marked once; of their
        waiters, those are woken whose status held the stop bit. The fifo loses
        the tokens spent on them, and one more when the loop gives up, which it
        does only with nothing pending; otherwise it runs till the fifo is empty
        or the stop flag is seen. */
    method TokenLoop() returns (ghost k: nat, ghost gaveUp: bool)
      requires Valid() && flag == 0
      modifies this`status, this`state, this`marks, this`wakes, this`fifo, this`loops, this`flag
      ensures Valid() && flag == 0
      ensures k <= |Pending(old(status))| && Drained(old(status), old(state), status, state, k)
      ensures marks == old(marks) + Pending(old(status))[..k]
      ensures wakes == old(wakes) + Wakes(old(status), Pending(old(status))[..k], {})
      ensures old(fifo) >= 1 && Pending(old(status)) != [] ==> k >= 1
      ensures old(fifo) == 0 ==> k == 0 && fifo == 0 && loops == old(loops)
      ensures fifo == Less(old(fifo), Spent(old(status), Pending(old(status))[..k]) + One(gaveUp))
      ensures gaveUp ==> Pending(status) == [] && loops == 0
      ensures fifo == 0 || gaveUp || (stop && k <= 1)
      ensures old(fifo) >= 1 ==> loops == 0 || (stop && k == 0 && loops == old(loops) + 1)
    {
      hide Pending, IsPending, TokensFor, Drained, Wakes, Spent;
      k, gaveUp := 0, false;
      ghost var st0, sa0, all := status, state, Pending(status);
      DrainNone(st0, sa0);
      SpentNone(st0);
      while fifo >= 1
        invariant Valid() && flag == 0
        invariant k <= |all| && Drained(st0, sa0, status, state, k)
        invariant marks == old(marks) + all[..k] && wakes == old(wakes) + Wakes(st0, all[..k], {})
        invariant fifo == Less(old(fifo), Spent(st0, all[..k])) && !gaveUp
        invariant k == 0 ==> fifo == old(fifo) && (all == [] || loops == old(loops))
        invariant old(fifo) == 0 ==> k == 0 && fifo == 0 && loops == old(loops)
        invariant fifo == 0 ==> loops == 0 || (k == 0 && loops == old(loops))
        invariant stop ==> k == 0 && loops == old(loops)
        decreases |Pending(status)|, Less(32, loops)
      {
        ghost var st, sa := status, state;
        var found, slot, quit := Turn();
        if found {
          DrainOne(st, sa, slot, {});
          DrainMore(st0, sa0, st, sa, k, {}, status, state, 1, {});
          DrainedBound(st0, sa0, status, state, k + 1);
          assert var none: set<nat> := {}; none + none == none;
          DrainedNext(st0, sa0, st, sa, k, slot);
          SpentOne(st0, all[..k], slot);
          k := k + 1;
        } else {
          DrainedAll(st0, sa0, status, state, k);
          gaveUp := quit && loops == 0;
        }
        if quit {
          break;
        }
      }
    }

    /** The token loop with interrupts between its turns: `schedule[t]` arrives
        before turn t. From every finite schedule it ends, with the fifo empty, by
        the stop flag, or by giving up with nothing pending. `trace` is what
        happened: exactly the events of the turns taken, and the marks, each of
        which read what its register held by then. Marks, wake-ups, channel
        states, status registers and fifo are those of the trace. */
    method BusyTokenLoop(schedule: seq<seq<Event>>) 
      returns (taken: nat, ghost trace: seq<Happening>, ghost gaveUp: bool)
      requires Valid() && flag == 0
      requires OnSlots(schedule, |status|)
      modifies this`status, this`state, this`marks, this`wakes, this`fifo, this`loops, this`flag
      ensures Valid() && flag == 0 && taken <= |schedule|
      ensures Sound(old(status), trace) && NoExtra(trace) && EventsOf(trace) == Flat(schedule[..taken])
      ensures status == Replay(old(status), trace) && StatesAfter(old(state), state, MarksOf(trace))
      ensures marks == old(marks) + MarksOf(trace) && wakes == old(wakes) + WokenOf(trace)
      ensures fifo == Less(Tokens(old(fifo), trace), One(gaveUp))
      ensures (gaveUp ==> Pending(status) == []) && (fifo == 0 || stop || gaveUp)
      ensures Accounts(old(status), EventsOf(trace), status, MarksOf(trace))
    {
      hide Pending, IsPending, TokensFor, Accounts, Sound, Replay, EventsOf, MarksOf, WokenOf, Flat;
      hide StatesAfter, OnSlots, Tokens;
      taken, trace, gaveUp := 0, [], false;
      TokensNone(fifo);
      ghost var st0, sa0 := status, state;
      TraceNone(st0, schedule);
      StatesNone(sa0);
      while fifo >= 1
        invariant Valid() && flag == 0 && taken <= |schedule| && |status| == |st0|
        invariant Sound(st0, trace) && NoExtra(trace) && EventsOf(trace) == Flat(schedule[..taken])
        invariant status == Replay(st0, trace) && StatesAfter(sa0, state, MarksOf(trace))
        invariant marks == old(marks) + MarksOf(trace) && wakes == old(wakes) + WokenOf(trace)
        invariant fifo == Tokens(old(fifo), trace) && !gaveUp
        decreases |schedule| - taken, |Pending(status)|, Less(32, loops)
      {
        if taken < |schedule| {
          FlatMore(schedule, taken);
          TurnOnSlots(schedule, |status|, taken);
          trace := Interrupts(schedule[taken], st0, old(fifo), trace);
          taken := taken + 1;
        }
        ghost var st, sa := status, state;
        var found, slot, quit := Turn();
        if found {
          PendingExactly(st);
          assert slot in Pending(st);
          StatesMore(sa0, sa, MarksOf(trace), slot);
          OneMark(st0, trace, slot, false);
          OneMore(st0, trace, Done(slot, st[slot], false));
          TokensMore(old(fifo), trace, Done(slot, st[slot], false));
          trace := trace + [Done(slot, st[slot], false)];
        } else {
          gaveUp := quit && loops == 0;
        }
        if quit {
          break;
        }
      }
      SoundAccounts(st0, trace);
    }

    /** One pass of the outer loop after its wait. The extra scan, run with the
        fifo empty, wakes the waiter of what it completes whatever its status. */
    method OuterPass() returns (ghost k: nat, ghost extra: set<nat>, ghost gaveUp: bool)
      requires Valid() && flag == 0
      modifies this`status, this`state, this`marks, this`wakes, this`fifo, this`loops, this`flag
      ensures Valid() && flag == 0 && fifo <= old(fifo)
      ensures k <= |Pending(old(status))| && Drained(old(status), old(state), status, state, k)
      ensures marks == old(marks) + Pending(old(status))[..k]
      ensures Pending(old(status)) != [] ==> k >= 1
      ensures wakes == old(wakes) + Wakes(old(status), Pending(old(status))[..k], extra)
      ensures gaveUp ==> Pending(status) == []
      ensures extra == {} || (fifo == 0 && k >= 1 && extra == {Pending(old(status))[k - 1]})
      ensures forall slot | slot in extra :: slot in Pending(old(status))[..k]
      ensures fifo == 0 ==> extra != {} || Pending(status) == []
      ensures fifo == Less(old(fifo), Spent(old(status), Pending(old(status))[..k - One(extra != {})]) + One(gaveUp))
      ensures fifo == 0 || gaveUp || stop
      ensures loops == 0 || loops == old(loops) || (stop && loops == old(loops) + 1)
      ensures old(fifo) == 0 ==> wakes == old(wakes) + Pending(old(status))[..k]
    {
      hide Pending, IsPending, Drained, Wakes, Spent;
      extra := {};
      k, gaveUp := TokenLoop();
      DrainedBound(old(status), old(state), status, state, k);
      if fifo < 1 {
        ghost var st, sa := status, state;
        var found, slot, irq := CompleteFirst();
        if found {
          wakes := wakes + [slot];
          extra := {slot};
          DrainOne(st, sa, slot, extra);
          DrainMore(old(status), old(state), st, sa, k, {}, status, state, 1, extra);
          assert {} + extra == extra;
          DrainedBound(old(status), old(state), status, state, k + 1);
          k := k + 1;
          assert Pending(old(status))[..k][k - 1] == slot;
        }
      }
      AllWoken(old(status), Pending(old(status))[..k], extra);
    }

    /** Any number of passes with no new interrupt and no stop request. Each
        completes at least one pending slot, so as many passes as there are
        pending slots drain them all, every one marked exactly once and in scan
        order. `extra` are the slots of the extra scans. */
    method Passes(n: nat) returns (ghost k: nat, ghost extra: set<nat>)
      requires Valid() && flag == 0 && !stop
      modifies this`status, this`state, this`marks, this`wakes, this`fifo, this`loops, this`flag
      ensures Valid() && flag == 0
      ensures k <= |Pending(old(status))| && Drained(old(status), old(state), status, state, k)
      ensures marks == old(marks) + Pending(old(status))[..k]
      ensures k >= n || k == |Pending(old(status))|
      ensures n >= |Pending(old(status))| ==> Pending(status) == [] && marks == old(marks) + Pending(old(status))
      ensures wakes == old(wakes) + Wakes(old(status), Pending(old(status))[..k], extra)
      ensures forall slot | slot in extra :: slot in Pending(old(status))[..k]
      ensures old(fifo) == 0 ==> wakes == old(wakes) + Pending(old(status))[..k]
      ensures fifo <= old(fifo) && (n > 0 && fifo > 0 ==> Pending(status) == []) && (loops == 0 || loops == old(loops))
    {
      hide Pending, IsPending, Drained, Wakes, Spent;
      k, extra := 0, {};
      ghost var st0, sa0, all := status, state, Pending(status);
      DrainNone(st0, sa0);
      for i := 0 to n
        invariant Valid() && flag == 0
        invariant k <= |all| && Drained(st0, sa0, status, state, k) && marks == old(marks) + all[..k]
        invariant wakes == old(wakes) + Wakes(st0, all[..k], extra)
        invariant k >= i || k == |all|
        invariant fifo <= old(fifo) && (i > 0 && fifo > 0 ==> Pending(status) == []) && (loops == 0 || loops == old(loops))
        invariant forall slot | slot in extra :: slot in all[..k]
        invariant old(fifo) == 0 ==> fifo == 0 && wakes == old(wakes) + all[..k]
      {
        ghost var st, sa := status, state;
        DrainedBound(st0, sa0, st, sa, k);
        var j, x, gaveUp := OuterPass();
        DrainMore(st0, sa0, st, sa, k, extra, status, state, j, x);
        DrainedBound(st0, sa0, status, state, k + j);
        assert marks == old(marks) + all[..k + j];
        assert wakes == old(wakes) + Wakes(st0, all[..k + j], extra + x);
        k, extra := k + j, extra + x;
      }
      DrainedBound(st0, sa0, status, state, k);
      assert all[..|all|] == all;
    }

    /** Interrupts from any finite schedule and then passes without any. The marks
        and wake-ups are those of one trace, which the passes carry on with a mark
        for each slot still pending: every slot that was pending, or was raised in
        a turn that came about, is marked, and no more often than that, even when
        its tokens were dropped. */
    method Settle(schedule: seq<seq<Event>>, n: nat) returns (taken: nat, ghost trace: seq<Happening>)
      requires Valid() && flag == 0 && !stop && n >= |status|
      requires OnSlots(schedule, |status|)
      modifies this`status, this`state, this`marks, this`wakes, this`fifo, this`loops, this`flag
      ensures Valid() && flag == 0 && taken <= |schedule| && Pending(status) == []
      ensures Sound(old(status), trace) && EventsOf(trace) == Flat(schedule[..taken])
      ensures status == Replay(old(status), trace) && StatesAfter(old(state), state, MarksOf(trace))
      ensures marks == old(marks) + MarksOf(trace) && wakes == old(wakes) + WokenOf(trace)
      ensures forall slot | 0 <= slot < |old(status)| ::
        && multiset(MarksOf(trace))[slot] <= Due(old(status), EventsOf(trace), slot)
        && (slot in MarksOf(trace) <==> Due(old(status), EventsOf(trace), slot) > 0)
    {
      hide Pending, IsPending, Due, Accounts, Drained, Wakes, Sound, Replay, EventsOf, MarksOf, WokenOf, Flat, StatesAfter;
      hide DrainsTo, DrainTrace, NoExtra, Tokens, OnSlots, Raises;
      ghost var st0, sa0 := status, state;
      ghost var tr, gaveUp;
      taken, tr, gaveUp := BusyTokenLoop(schedule);
      ghost var st, sa, w := status, state, wakes;
      PendingSize(st);
      var k, extra := Passes(n);
      ghost var done := Pending(st)[..k];
      trace := tr + DrainTrace(st, done, extra);
      PendingSlots(st, k);
      DrainIsTrace(st0, tr, done, extra);
      DrainedStates(sa0, MarksOf(tr), st, sa, status, state, k);
      SettledByTrace(st0, tr, done, extra, sa, status, state, k);
      assert old(wakes) + WokenOf(tr) + Wakes(st, done, extra) == old(wakes) + (WokenOf(tr) + Wakes(st, done, extra));
      SoundAccounts(st0, trace);
      AccountsSettled(st0, EventsOf(trace), status, MarksOf(trace));
    }
  }

  lemma PendingSize(status: seq<bv32>)
    ensures |Pending(status)| <= |status|
  {
  }

  lemma PendingSlots(status: seq<bv32>, k: nat)
    requires k <= |Pending(status)|
    ensures Distinct(Pending(status)[..k]) && forall s | s in Pending(status)[..k] :: s < |status| && IsPending(status[s])
  {
    PendingExactly(status);
    hide Pending, IsPending;
    forall s | s in Pending(status)[..k] ensures s < |status| && IsPending(status[s]) {
      assert s in Pending(status);
    }
  }

  /** Every event of the schedule is of an existing slot. */
  ghost predicate OnSlots(schedule: seq<seq<Event>>, n: nat) {
    forall t, i | 0 <= t < |schedule| && 0 <= i < |schedule[t]| :: schedule[t][i].slot < n
  }

  lemma TurnOnSlots(schedule: seq<seq<Event>>, n: nat, t: nat)
    requires OnSlots(schedule, n) && t < |schedule|
    ensures forall i | 0 <= i < |schedule[t]| :: schedule[t][i].slot < n
  {
  }

  lemma StatesMore(before: seq<TransferState>, after: seq<TransferState>, marked: seq<nat>, slot: nat)
    requires StatesAfter(before, after, marked) && slot < |after|
    ensures StatesAfter(before, after[slot := COMPLETED], marked + [slot])
  {
  }

  lemma StatesNone(before: seq<TransferState>)
    ensures StatesAfter(before, before, [])
  {
  }

  predicate NoExtra(trace: seq<Happening>) { forall x | x in trace && x.Done? :: !x.extra }

  lemma TokensNone(fifo: nat)
    ensures Tokens(fifo, []) == fifo
  {
  }

  lemma TraceNone(before: seq<bv32>, schedule: seq<seq<Event>>)
    ensures Sound(before, []) && Replay(before, []) == before && EventsOf([]) == Flat(schedule[..0])
    ensures MarksOf([]) == [] && WokenOf([]) == []
  {
  }

  /** The passes' marks as a trace: the pending slots in order, each with the status
      it held. */
  function DrainTrace(status: seq<bv32>, slots: seq<nat>, extra: set<nat>): seq<Happening>
  {
    if slots == [] then []
    else
      var slot := slots[|slots| - 1];
      var bits := if slot < |status| then status[slot] else 0;
      DrainTrace(status, slots[..|slots| - 1], extra) + [Done(slot, bits, slot in extra)]
  }

  /** `tr` carries `trace` on with a mark for each of `slots`. */
  ghost predicate DrainsTo(before: seq<bv32>, trace: seq<Happening>, slots: seq<nat>, extra: set<nat>, tr: seq<Happening>) {
    var st := Replay(before, trace);
    && Sound(before, tr) && EventsOf(tr) == EventsOf(trace) && MarksOf(tr) == MarksOf(trace) + slots
    && WokenOf(tr) == WokenOf(trace) + Wakes(st, slots, extra)
    && forall s | 0 <= s < |st| :: Replay(before, tr)[s] == if s in slots then 0 else st[s]
  }

  lemma DrainStep(before: seq<bv32>, trace: seq<Happening>, slots: seq<nat>, extra: set<nat>, tr: seq<Happening>, slot: nat)
    requires DrainsTo(before, trace, slots, extra, tr) && slot !in slots
    requires slot < |before| && IsPending(Replay(before, trace)[slot])
    ensures DrainsTo(before, trace, slots + [slot], extra, tr + [Done(slot, Replay(before, trace)[slot], slot in extra)])
  {
    hide IsPending, HasStop, Sound, Replay, EventsOf, MarksOf, WokenOf;
    var x := Done(slot, Replay(before, trace)[slot], slot in extra);
    OneMark(before, tr, slot, slot in extra);
    OneMore(before, tr, x);
    assert (slots + [slot])[..|slots|] == slots;
  }

  ghost predicate Distinct(slots: seq<nat>) { forall i, j | 0 <= i < j < |slots| :: slots[i] != slots[j] }

  lemma DistinctFront(slots: seq<nat>)
    requires slots != [] && Distinct(slots)
    ensures var front, slot := slots[..|slots| - 1], slots[|slots| - 1];
      Distinct(front) && slot !in front && slot in slots && forall s | s in front :: s in slots
  {
  }

  lemma DrainTraceMore(status: seq<bv32>, slots: seq<nat>, extra: set<nat>, slot: nat)
    requires slot < |status|
    ensures DrainTrace(status, slots + [slot], extra) == DrainTrace(status, slots, extra) + [Done(slot, status[slot], slot in extra)]
  {
    assert (slots + [slot])[..|slots|] == slots;
  }

  lemma {:induction false} DrainIsTrace(before: seq<bv32>, trace: seq<Happening>, slots: seq<nat>, extra: set<nat>)
    requires Sound(before, trace)
    requires forall s | s in slots :: s < |before| && IsPending(Replay(before, trace)[s])
    requires Distinct(slots)
    ensures DrainsTo(before, trace, slots, extra, trace + DrainTrace(Replay(before, trace), slots, extra))
  {
    var st := Replay(before, trace);
    if slots == [] {
      assert trace + [] == trace;
    } else {
      hide IsPending, HasStop, Sound, Replay, EventsOf, MarksOf, WokenOf, DrainsTo, DrainTrace, Distinct;
      var front, slot := slots[..|slots| - 1], slots[|slots| - 1];
      assert slots == front + [slot];
      DistinctFront(slots);
      DrainIsTrace(before, trace, front, extra);
      var tr := trace + DrainTrace(st, front, extra);
      DrainStep(before, trace, front, extra, tr, slot);
      DrainTraceMore(st, front, extra, slot);
      assert trace + (DrainTrace(st, front, extra) + [Done(slot, st[slot], slot in extra)])
          == tr + [Done(slot, st[slot], slot in extra)];
    }
  }

  lemma DrainedStates(before: seq<TransferState>, marked: seq<nat>, st: seq<bv32>, sa: seq<TransferState>,
                      st': seq<bv32>, sa': seq<TransferState>, k: nat)
    requires StatesAfter(before, sa, marked) && Drained(st, sa, st', sa', k)
    ensures StatesAfter(before, sa', marked + Pending(st)[..k])
  {
    hide Pending;
  }

  /** What the passes leave is what the carried-on trace says. */
  lemma SettledByTrace(before: seq<bv32>, trace: seq<Happening>, slots: seq<nat>, extra: set<nat>, sa: seq<TransferState>,
                       st': seq<bv32>, sa': seq<TransferState>, k: nat)
    requires var st := Replay(before, trace);
      Drained(st, sa, st', sa', k) && slots == Pending(st)[..k]
      && DrainsTo(before, trace, slots, extra, trace + DrainTrace(st, slots, extra))
    ensures var st := Replay(before, trace); var tr := trace + DrainTrace(st, slots, extra);
      && st' == Replay(before, tr) && Sound(before, tr) && EventsOf(tr) == EventsOf(trace)
      && MarksOf(tr) == MarksOf(trace) + slots && WokenOf(tr) == WokenOf(trace) + Wakes(st, slots, extra)
  {
    hide Pending, Replay, DrainTrace, Sound, EventsOf, MarksOf, WokenOf, Wakes;
  }

  /** With nothing pending, the marks alone settle the account. */
  lemma AccountsSettled(before: seq<bv32>, events: seq<Event>, after: seq<bv32>, marks: seq<nat>)
    requires Accounts(before, events, after, marks) && Pending(after) == []
    ensures forall slot | 0 <= slot < |before| ::
      multiset(marks)[slot] <= Due(before, events, slot) && (slot in marks <==> Due(before, events, slot) > 0)
  {
    PendingExactly(after);
    hide Pending, IsPending;
    forall slot | 0 <= slot < |before|
      ensures multiset(marks)[slot] <= Due(before, events, slot) && (slot in marks <==> Due(before, events, slot) > 0)
    {
      assert Paid(after, marks, slot) <= Due(before, events, slot);
      assert slot !in Pending(after);
    }
  }

  lemma AccountsNone(status: seq<bv32>)
    ensures Accounts(status, [], status, [])
  {
  }

  lemma FlatMore(schedule: seq<seq<Event>>, t: nat)
    requires t < |schedule|
    ensures Flat(schedule[..t + 1]) == Flat(schedule[..t]) + schedule[t]
  {
    assert schedule[..t + 1][..t] == schedule[..t];
  }

  lemma DrainNone(status: seq<bv32>, state: seq<TransferState>)
    requires |state| == |status|
    ensures Drained(status, state, status, state, 0)
    ensures Pending(status)[..0] == [] && forall x :: Wakes(status, [], x) == []
  {
  }

  lemma DrainedBound(status: seq<bv32>, state: seq<TransferState>, status': seq<bv32>, state': seq<TransferState>, k: nat)
    requires Drained(status, state, status', state', k)
    ensures k <= |Pending(status)| && Pending(status') == Pending(status)[k..]
  {
  }

  /** The next pending slot is still as it was. */
  lemma DrainedNext(st0: seq<bv32>, sa0: seq<TransferState>, st: seq<bv32>, sa: seq<TransferState>, k: nat, slot: nat)
    requires Drained(st0, sa0, st, sa, k) && |Pending(st)| >= 1 && [slot] == Pending(st)[..1]
    ensures k < |Pending(st0)| && Pending(st0)[..k + 1] == Pending(st0)[..k] + [slot]
    ensures slot < |st0| && st[slot] == st0[slot]
  {
    PendingExactly(st0);
    hide Pending, IsPending;
    assert Pending(st0)[k] == Pending(st)[0] == slot;
    assert Pending(st0)[k] in Pending(st0);
  }

  lemma SpentNone(status: seq<bv32>)
    ensures Spent(status, []) == 0
  {
  }

  lemma DrainedAll(status: seq<bv32>, state: seq<TransferState>, status': seq<bv32>, state': seq<TransferState>, k: nat)
    requires Drained(status, state, status', state', k) && Pending(status') == []
    ensures k == |Pending(status)|
  {
  }

  lemma LowBits(irq: bv32)
    ensures irq & 3 == 0 || irq & 3 == 1 || irq & 3 == 2 || irq & 3 == 3
    ensures irq & 3 & 1 == irq & 1
  {
  }

  /** A pass drains what is pending: the slots with a pending status, no slot twice. */
  lemma PendingExactly(status: seq<bv32>)
    ensures forall slot :: slot in Pending(status) <==> 0 <= slot < |status| && IsPending(status[slot])
    ensures forall i, j | 0 <= i < j < |Pending(status)| :: Pending(status)[i] != Pending(status)[j]
    ensures |Pending(status)| <= |status|
  {
    hide IsPending;
    MarkedExactly(Flags(status), |status|);
  }
}
