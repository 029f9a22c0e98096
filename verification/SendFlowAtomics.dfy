/** The lock-free send credit: any number of threads interleave the loads, compare-exchanges and
    subtractions of `try_reserve`, `release` and `update_max`. */
module SendFlowAtomics {
  import opened Endpoints

  /** Where a thread stands. `maxThen` records the limit at the moment `sent` was loaded. */
  datatype Pc =
    | Idle
    | LoadSent(requested: nat)
    | LoadMax(requested: nat, sent: nat, maxThen: nat)
    | SwapSent(requested: nat, sent: nat, max: nat)
    | LoadLimit(target: nat)
    | SwapLimit(target: nat, current: nat)

  /** `held` sums the grants a thread has received and not released. */
  datatype Thread = Thread(pc: Pc, held: nat)

  datatype Flow = Flow(sentData: nat, maxData: nat, closed: bool, threads: seq<Thread>)

  datatype Op = BeginReserve(requested: nat) | BeginUpdate(target: nat) | Release(n: nat) | Close | Continue

  function NewFlow(initialMax: nat, threads: nat): (f: Flow) {
    Flow(0, initialMax, false, seq(threads, i requires 0 <= i < threads => Thread(Idle, 0)))
  }

  /** The shared words and one thread: all that a single memory operation can touch. */
  datatype Cell = Cell(sentData: nat, maxData: nat, closed: bool, thread: Thread)

  /** The grant a compare-exchange asks for. */
  function Grant(requested: nat, sent: nat, max: nat): (g: nat)
    requires sent <= max
  {
    Min(max - sent, requested)
  }

  function Goto(c: Cell, pc: Pc): (r: Cell) {
    c.(thread := c.thread.(pc := pc))
  }

  /** One atomic memory operation. */
  function Atomic(c: Cell, op: Op): (r: Cell) {
    match (op, c.thread.pc)
    case (BeginReserve(n), Idle) => if n == 0 || c.closed then c else Goto(c, LoadSent(n))
    case (BeginUpdate(m), Idle) => if c.closed then c else Goto(c, LoadLimit(m))
    case (Release(n), Idle) =>
      if n > c.thread.held || n > c.sentData then c
      else c.(sentData := c.sentData - n, thread := c.thread.(held := c.thread.held - n))
    case (Close, Idle) => c.(closed := true)
    case (Continue, LoadSent(n)) => Goto(c, LoadMax(n, c.sentData, c.maxData))
    case (Continue, LoadMax(n, sent, _)) =>
      if c.maxData <= sent then Goto(c, Idle) else Goto(c, SwapSent(n, sent, c.maxData))
    case (Continue, SwapSent(n, sent, max)) =>
      if c.sentData != sent || max < sent then Goto(c, LoadSent(n))
      else c.(sentData := sent + Grant(n, sent, max), thread := Thread(Idle, c.thread.held + Grant(n, sent, max)))
    case (Continue, LoadLimit(m)) =>
      if m > c.maxData then Goto(c, SwapLimit(m, c.maxData)) else Goto(c, Idle)
    case (Continue, SwapLimit(m, current)) =>
      if c.maxData == current then Goto(c, Idle).(maxData := m)
      else if m > c.maxData then Goto(c, SwapLimit(m, c.maxData))
      else Goto(c, Idle)
    case _ => c
  }

  function CellOf(f: Flow, t: nat): (c: Cell)
    requires t < |f.threads|
  {
    Cell(f.sentData, f.maxData, f.closed, f.threads[t])
  }

  function Tick(f: Flow, t: nat, op: Op): (r: Flow)
    requires t < |f.threads|
  {
    var c := Atomic(CellOf(f, t), op);
    Flow(c.sentData, c.maxData, c.closed, f.threads[t := c.thread])
  }

  /** A schedule names the thread and the operation of every tick. */
  function Interleave(f: Flow, schedule: seq<(nat, Op)>): (r: Flow)
    requires forall i :: 0 <= i < |schedule| ==> schedule[i].0 < |f.threads|
    ensures |r.threads| == |f.threads|
    decreases |schedule|
  {
    if schedule == [] then f
    else
      var (t, op) := schedule[|schedule| - 1];
      Tick(Interleave(f, schedule[..|schedule| - 1]), t, op)
  }

  function Held(threads: seq<Thread>): (n: nat) {
    if threads == [] then 0 else threads[0].held + Held(threads[1..])
  }

  lemma {:induction false} HeldUpdate(threads: seq<Thread>, t: nat, th: Thread)
    requires t < |threads|
    ensures Held(threads[t := th]) == Held(threads) - threads[t].held + th.held
    ensures threads[t].held <= Held(threads)
  {
    if t > 0 {
      HeldUpdate(threads[1..], t - 1, th);
      assert threads[t := th][1..] == threads[1..][t - 1 := th];
    } else {
      assert threads[t := th][1..] == threads[1..];
    }
  }

  /** What a suspended thread may rely on: limits it has loaded are never ahead of the current one. */
  predicate PcInv(maxData: nat, pc: Pc) {
    match pc
    case LoadSent(n) => n > 0
    case LoadMax(n, sent, maxThen) => n > 0 && sent <= maxThen <= maxData
    case SwapSent(n, sent, max) => n > 0 && sent < max <= maxData
    case SwapLimit(m, current) => current < m && current <= maxData
    case _ => true
  }

  predicate FlowOk(f: Flow) {
    && f.sentData <= f.maxData && f.sentData == Held(f.threads)
    && forall t :: 0 <= t < |f.threads| ==> PcInv(f.maxData, f.threads[t].pc)
  }

  /** The atomic counter that the interleavings refine. */
  datatype CreditCounter = CreditCounter(sentData: nat, maxData: nat)

  function Abstract(f: Flow): (c: CreditCounter) {
    CreditCounter(f.sentData, f.maxData)
  }

  /** One operation of the atomic counter: reserve some of what is available, give some back, or raise the limit. */
  predicate CounterStep(c: CreditCounter, c': CreditCounter) {
    || c' == c
    || (c'.maxData == c.maxData && c.sentData < c'.sentData <= c.maxData)
    || (c'.maxData == c.maxData && c'.sentData < c.sentData)
    || (c'.sentData == c.sentData && c.maxData < c'.maxData)
  }

  lemma AtomicKeeps(c: Cell, op: Op)
    requires PcInv(c.maxData, c.thread.pc) && c.thread.held <= c.sentData <= c.maxData
    ensures var c' := Atomic(c, op);
            && PcInv(c'.maxData, c'.thread.pc) && c'.sentData <= c'.maxData && c.maxData <= c'.maxData
            && c'.sentData - c'.thread.held == c.sentData - c.thread.held
            && CounterStep(CreditCounter(c.sentData, c.maxData), CreditCounter(c'.sentData, c'.maxData))
  {
  }

  lemma TickKeeps(f: Flow, t: nat, op: Op)
    requires FlowOk(f) && t < |f.threads|
    ensures FlowOk(Tick(f, t, op))
    ensures CounterStep(Abstract(f), Abstract(Tick(f, t, op)))
    ensures f.maxData <= Tick(f, t, op).maxData
  {
    hide Atomic, Held;
    var c := Atomic(CellOf(f, t), op);
    HeldUpdate(f.threads, t, c.thread);
    AtomicKeeps(CellOf(f, t), op);
  }

  /** Under every interleaving of any number of threads, even when a compare-exchange succeeds on a value
      that changed and came back: the data sent never exceeds the limit, it is exactly what threads hold,
      so no release can underflow, and the limit never decreases. */
  lemma {:induction false} EveryInterleaving(initialMax: nat, threads: nat, schedule: seq<(nat, Op)>)
    requires forall i :: 0 <= i < |schedule| ==> schedule[i].0 < threads
    ensures var f := Interleave(NewFlow(initialMax, threads), schedule);
            && FlowOk(f) && f.sentData <= f.maxData && initialMax <= f.maxData
            && (forall t :: 0 <= t < |f.threads| ==> f.threads[t].held <= f.sentData)
  {
    var f := Interleave(NewFlow(initialMax, threads), schedule);
    if schedule == [] {
      NothingHeld(threads);
    } else {
      EveryInterleaving(initialMax, threads, schedule[..|schedule| - 1]);
      var (t, op) := schedule[|schedule| - 1];
      TickKeeps(Interleave(NewFlow(initialMax, threads), schedule[..|schedule| - 1]), t, op);
    }
    hide FlowOk, Tick;
    HeldBound(f);
  }

  lemma HeldBound(f: Flow)
    requires FlowOk(f)
    ensures f.sentData <= f.maxData
    ensures forall t :: 0 <= t < |f.threads| ==> f.threads[t].held <= f.sentData
  {
    forall t | 0 <= t < |f.threads| ensures f.threads[t].held <= f.sentData { HeldUpdate(f.threads, t, f.threads[t]); }
  }

  lemma {:induction false} NothingHeld(n: nat)
    ensures Held(NewFlow(0, n).threads) == 0
  {
    if n > 0 {
      NothingHeld(n - 1);
      assert NewFlow(0, n).threads[1..] == NewFlow(0, n - 1).threads;
    }
  }

  /** A successful compare-exchange grants between one byte and what was asked, out of credit that is available now. */
  lemma GrantIsCovered(f: Flow, t: nat)
    requires FlowOk(f) && t < |f.threads| && f.threads[t].pc.SwapSent?
    ensures var f' := Tick(f, t, Continue);
            f.sentData == f.threads[t].pc.sent ==>
              && 0 < f'.sentData - f.sentData <= f.threads[t].pc.requested
              && f'.sentData - f.sentData == Min(f.threads[t].pc.max - f.threads[t].pc.sent, f.threads[t].pc.requested)
              && f'.sentData - f.sentData == f'.threads[t].held - f.threads[t].held
              && f'.sentData <= f.maxData
  {
    assert PcInv(f.maxData, f.threads[t].pc);
  }

  /** `try_reserve` gives up only if credit was exhausted at the moment it loaded `sent`. */
  lemma RefusalWasExhausted(f: Flow, t: nat)
    requires FlowOk(f) && t < |f.threads| && f.threads[t].pc.LoadMax?
    ensures Tick(f, t, Continue).threads[t].pc.Idle? ==> f.threads[t].pc.maxThen <= f.threads[t].pc.sent
  {
    assert PcInv(f.maxData, f.threads[t].pc);
  }

  /** A thread that is about to reserve. */
  predicate Reserving(pc: Pc) {
    pc.LoadSent? || pc.LoadMax? || pc.SwapSent?
  }

  /** A thread that is about to raise the limit, and to what. */
  predicate Raising(pc: Pc) {
    pc.LoadLimit? || pc.SwapLimit?
  }

  /** Both loops end only with what they are for. A reservation ends with a grant, or with exhausted credit; a raise
      ends with a limit that has reached its target, whoever got it there; until then they try again. */
  lemma LoopsEnd(f: Flow, t: nat)
    requires FlowOk(f) && t < |f.threads|
    ensures var pc, f' := f.threads[t].pc, Tick(f, t, Continue);
            && (Reserving(pc) && !Reserving(f'.threads[t].pc) ==>
                  || f'.threads[t].held > f.threads[t].held
                  || (pc.LoadMax? && pc.maxThen <= pc.sent))
            && (Raising(pc) ==> if Raising(f'.threads[t].pc) then f'.threads[t].pc.target == pc.target
                                else f'.maxData >= pc.target)
  {
    assert PcInv(f.maxData, f.threads[t].pc);
  }

  /** Run without interruption, the two loops are the atomic reserve and raise of the session model. */
  lemma Uninterrupted(c: Cell, n: nat)
    requires c.sentData <= c.maxData && c.thread.pc.Idle? && !c.closed && n > 0
    ensures var r := Atomic(Atomic(Atomic(Atomic(c, BeginReserve(n)), Continue), Continue), Continue);
            var grant := Min(c.maxData - c.sentData, n);
            r == c.(sentData := c.sentData + grant, thread := Thread(Idle, c.thread.held + grant))
    ensures Atomic(Atomic(Atomic(c, BeginUpdate(n)), Continue), Continue) == c.(maxData := Max(c.maxData, n))
  {
    var c1 := Atomic(c, BeginReserve(n));
    var c2 := Atomic(c1, Continue);
    assert c2 == Goto(c, LoadMax(n, c.sentData, c.maxData));
    var d1 := Atomic(c, BeginUpdate(n));
    assert d1 == Goto(c, LoadLimit(n));
  }
}
