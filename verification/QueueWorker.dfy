/** The queue worker (internal/distributed/worker_runtime.go): a consumer goroutine, the
    main select loop, and one goroutine per message that is being handled. */
module QueueWorker {
  import opened MemoryBus
  import opened Wrappers

  // ---- one handler ----

  datatype Fault = Fine | Transient | Permanent
  datatype RunOutcome = Completed | NotCompleted | RunError(transient: bool)

  /** What handling a message runs into, stage by stage. */
  datatype Job = Job(payloadOk: bool, requirementsMet: bool, requestOk: bool, workspace: Fault, runnerOk: bool,
                     run: RunOutcome)

  /** Only two kinds of message go back to the queue: one meant for another worker, and
      one a transient fault of its workspace or its run stopped. */
  predicate GoesBack(job: Job) {
    job.payloadOk &&
    (!job.requirementsMet ||
     (job.requestOk &&
       (job.workspace.Transient? || (job.workspace.Fine? && job.runnerOk && job.run == RunError(true)))))
  }

  /** What finishes a message for good: it cannot be read, or a worker that meets its
      requirements finds its request unreadable, its workspace at fault for good, no runner
      for it, or a run that ends, well or not, without a transient error. */
  predicate IsFinal(job: Job) {
    !job.payloadOk ||
    (job.requirementsMet && !job.requestOk) ||
    (job.requirementsMet && job.workspace == Permanent) ||
    (job.requirementsMet && job.workspace == Fine && !job.runnerOk) ||
    (job.requirementsMet && job.workspace == Fine && job.run != RunError(true))
  }

  datatype Settlement = AckMessage | NackMessage

  class Handlers {
    const bus: MemoryBus
    var activeLoad: int

    constructor (bus: MemoryBus)
      ensures this.bus == bus && activeLoad == 0
    {
      this.bus, activeLoad := bus, 0;
    }

    /** Every path through the handler settles its message once, and leaves the load
        counter as it found it. */
    method HandleQueueMessage(id: ItemId, job: Job) returns (settled: seq<Settlement>)
      modifies this, bus
      ensures settled == [if GoesBack(job) then NackMessage else AckMessage]
      ensures bus.State() == if GoesBack(job) then Nacked(old(bus.State()), id) else Acked(old(bus.State()), id)
      ensures activeLoad == old(activeLoad)
    {
      if !job.payloadOk {
        bus.AckQueueItem(id);
        return [AckMessage];
      }
      if !job.requirementsMet {
        bus.NackQueueItem(id);
        return [NackMessage];
      }
      if !job.requestOk {
        bus.AckQueueItem(id);
        return [AckMessage];
      }
      if job.workspace != Fine {
        if job.workspace == Transient {
          bus.NackQueueItem(id);
          return [NackMessage];
        } else {
          bus.AckQueueItem(id);
          return [AckMessage];
        }
      }
      if !job.runnerOk {
        bus.AckQueueItem(id);
        return [AckMessage];
      }
      activeLoad := activeLoad + 1;
      var run := job.run;
      activeLoad := activeLoad - 1;
      if run == Completed {
        bus.AckQueueItem(id);
        return [AckMessage];
      }
      if run.RunError? && run.transient {
        bus.NackQueueItem(id);
        return [NackMessage];
      }
      bus.AckQueueItem(id);
      settled := [AckMessage];
    }
  }

  // ---- the worker as interleaved steps ----

  datatype Mode = Serving | Draining | Stopping | Failed
  datatype Handler = Handler(id: ItemId, settled: bool)

  /** busy: the main loop is inside dispatchPending; otherwise it waits in a select.
      returned: finished handlers that gave their slot back and have not signalled yet.
      tokens: what lies in the slotReleased channel. */
  datatype Worker = Worker(
    queue: string, max: nat, mode: Mode, busy: bool,
    hand: Option<ItemId>, channel: seq<ItemId>, pending: seq<ItemId>,
    slots: set<nat>, running: map<nat, Handler>, returned: nat, tokens: nat,
    received: seq<ItemId>, started: seq<ItemId>, sentBack: seq<ItemId>)

  /** One worker on a bus it shares: others are the items other workers hold; they handle
      them, or send them back as a cancelled worker does. */
  datatype System = System(ledger: Ledger, w: Worker, others: set<ItemId>)

  datatype Step =
    | Produce(queue: string, event: string)
    | OtherTake(queue: string)
    | OtherSettle(id: ItemId, theirs: Option<Job>)
    | Fetch | Deliver | Receive | ChannelClosed
    | Dispatch(slot: nat) | Rest | Wake
    | Settle(slot: nat, job: Job) | Return(slot: nat) | Signal
    | Cancel | SendBack | HeartbeatFails

  const CHANNEL_CAPACITY: nat := 32
  const UNREADABLE := Job(false, false, false, Fine, false, NotCompleted)

  predicate Waits(w: Worker) {
    (w.mode.Serving? || w.mode.Draining?) && !w.busy
  }

  predicate Enabled(s: System, step: Step) {
    var w := s.w;
    match step
    case Produce(_, _) => true
    case OtherTake(_) => true
    case OtherSettle(id, _) => id in s.others
    case Fetch => w.hand.None? && !w.mode.Draining?
    case Deliver => w.hand.Some? && |w.channel| < CHANNEL_CAPACITY && !w.mode.Draining?
    case Receive => w.mode.Serving? && !w.busy && w.channel != []
    case ChannelClosed => w.mode.Serving? && !w.busy && w.channel == []
    case Dispatch(slot) => w.busy && w.pending != [] && slot in w.slots
    case Rest => w.busy && (w.pending == [] || w.slots == {})
    case Wake => Waits(w) && w.tokens > 0
    case Settle(slot, _) => slot in w.running && !w.running[slot].settled
    case Return(slot) => slot in w.running && w.running[slot].settled
    case Signal => w.returned > 0
    case Cancel => Waits(w)
    case SendBack => w.mode.Stopping? && w.pending != []
    case HeartbeatFails => w.mode.Serving? && !w.busy
  }

  function Answer(id: ItemId, job: Job): Event {
    if GoesBack(job) then Nack(id) else Ack(id)
  }

  /** What a step does on the bus. */
  function BusEvent(s: System, step: Step): Option<Event>
    requires Enabled(s, step)
  {
    match step
    case Produce(q, event) => Some(Enqueue(q, event))
    case OtherTake(q) => Some(Take(q))
    case OtherSettle(id, job) => Some(if job.None? then Nack(id) else Answer(id, job.value))
    case Fetch => Some(Take(s.w.queue))
    case Settle(slot, job) => Some(Answer(s.w.running[slot].id, job))
    case SendBack => Some(Nack(s.w.pending[0]))
    case _ => None
  }

  function NextLedger(s: System, step: Step): Ledger
    requires Enabled(s, step)
  {
    var e := BusEvent(s, step);
    if e.Some? then Record(s.ledger, e.value) else s.ledger
  }

  /** The item a take hands out, if any. */
  function TakenId(l: Ledger, queue: string): Option<ItemId> {
    var item := Taken(l.bus, queue).1;
    if item.Some? then Some(item.value.id) else None
  }

  function NextWorker(s: System, step: Step): Worker
    requires Enabled(s, step)
  {
    var w := s.w;
    match step
    case Produce(_, _) => w
    case OtherTake(_) => w
    case OtherSettle(_, _) => w
    case Fetch => w.(hand := TakenId(s.ledger, w.queue))
    case Deliver => w.(hand := None, channel := w.channel + [w.hand.value])
    case Receive =>
      w.(channel := w.channel[1..], pending := w.pending + [w.channel[0]], received := w.received + [w.channel[0]],
         busy := true)
    case ChannelClosed => w.(mode := Draining, busy := true)
    case Dispatch(slot) =>
      w.(slots := w.slots - {slot}, running := w.running[slot := Handler(w.pending[0], false)],
         pending := w.pending[1..], started := w.started + [w.pending[0]])
    case Rest => w.(busy := false)
    case Wake => w.(tokens := w.tokens - 1, busy := true)
    case Settle(slot, _) => w.(running := w.running[slot := w.running[slot].(settled := true)])
    case Return(slot) => w.(slots := w.slots + {slot}, running := w.running - {slot}, returned := w.returned + 1)
    case Signal => w.(returned := w.returned - 1, tokens := if w.tokens < w.max then w.tokens + 1 else w.tokens)
    case Cancel => w.(mode := Stopping)
    case SendBack => w.(pending := w.pending[1..], sentBack := w.sentBack + [w.pending[0]])
    case HeartbeatFails => w.(mode := Failed)
  }

  function Next(s: System, step: Step): System
    requires Enabled(s, step)
  {
    var taken := if step.OtherTake? then TakenId(s.ledger, step.queue) else None;
    System(NextLedger(s, step), NextWorker(s, step),
           if taken.Some? then s.others + {taken.value}
           else if step.OtherSettle? then s.others - {step.id} else s.others)
  }

  // ---- what every step keeps ----

  /** The slot numbers 0, 1, ... n - 1 the worker starts with. */
  function AllSlots(n: nat): (all: set<nat>)
    ensures |all| == n
    ensures forall i :: i in all ==> i < n
  {
    if n == 0 then {} else AllSlots(n - 1) + {n - 1}
  }

  predicate SlotSplit(free: set<nat>, taken: set<nat>, max: nat) {
    free !! taken && free + taken == AllSlots(max)
  }

  /** Slots: free and running together are the configured number, none is lost. */
  ghost predicate SlotsAddUp(w: Worker) {
    w.max >= 1 && w.tokens <= w.max && SlotSplit(w.slots, w.running.Keys, w.max)
  }

  /** Whoever waits with work and a free slot has a wake-up coming. */
  predicate NoLostWakeUp(w: Worker) {
    Waits(w) && w.pending != [] && w.slots != {} ==> w.tokens > 0 || w.returned > 0
  }

  /** Messages start in the order they came in; what did not start was sent back or waits. */
  predicate ArrivalOrder(w: Worker) {
    w.received == w.started + w.sentBack + w.pending &&
    (w.sentBack != [] ==> w.mode.Stopping?) &&
    (w.busy ==> w.mode.Serving? || w.mode.Draining?)
  }

  ghost predicate LocalInv(w: Worker) {
    SlotsAddUp(w) && NoLostWakeUp(w) && ArrivalOrder(w)
  }

  lemma StepKeepsSlots(s: System, step: Step)
    requires SlotsAddUp(s.w) && Enabled(s, step)
    ensures SlotsAddUp(NextWorker(s, step))
  {
    match step
    case Dispatch(slot) => TakeSlot(s.w.slots, s.w.running, s.w.max, slot, Handler(s.w.pending[0], false));
    case Return(slot) => ReturnSlot(s.w.slots, s.w.running, s.w.max, slot);
    case Settle(slot, _) => assert NextWorker(s, step).running.Keys == s.w.running.Keys;
    case _ =>
  }

  lemma TakeSlot(free: set<nat>, running: map<nat, Handler>, max: nat, slot: nat, h: Handler)
    requires SlotSplit(free, running.Keys, max) && slot in free
    ensures SlotSplit(free - {slot}, running[slot := h].Keys, max)
  {
    hide AllSlots;
    assert running[slot := h].Keys == running.Keys + {slot};
    assert free - {slot} + (running.Keys + {slot}) == free + running.Keys;
  }

  lemma ReturnSlot(free: set<nat>, running: map<nat, Handler>, max: nat, slot: nat)
    requires SlotSplit(free, running.Keys, max) && slot in running
    ensures SlotSplit(free + {slot}, (running - {slot}).Keys, max)
  {
    hide AllSlots;
    assert (running - {slot}).Keys == running.Keys - {slot};
    assert free + {slot} + (running.Keys - {slot}) == free + running.Keys;
  }

  lemma StepKeepsWakeUp(s: System, step: Step)
    requires NoLostWakeUp(s.w) && s.w.max >= 1 && s.w.tokens <= s.w.max && Enabled(s, step)
    ensures NoLostWakeUp(NextWorker(s, step))
  {
  }

  lemma StepKeepsOrder(s: System, step: Step)
    requires ArrivalOrder(s.w) && Enabled(s, step)
    ensures ArrivalOrder(NextWorker(s, step))
  {
    var w := s.w;
    match step {
      case Receive =>
        assert w.started + w.sentBack + w.pending + [w.channel[0]] ==
          w.started + w.sentBack + (w.pending + [w.channel[0]]);
      case Dispatch(_) =>
        SplitHead(w.started, w.pending);
      case SendBack =>
        SplitHead(w.started + w.sentBack, w.pending);
      case _ =>
    }
  }

  lemma SplitHead(a: seq<ItemId>, b: seq<ItemId>)
    requires b != []
    ensures a + b == a + [b[0]] + b[1..]
    ensures a + [] + b == a + [b[0]] + [] + b[1..]
  {
  }

  lemma StepKeepsLocal(s: System, step: Step)
    requires LocalInv(s.w) && Enabled(s, step)
    ensures LocalInv(NextWorker(s, step))
  {
    StepKeepsSlots(s, step);
    StepKeepsWakeUp(s, step);
    StepKeepsOrder(s, step);
  }

  /** The count behind SlotsAddUp. */
  lemma SlotCount(w: Worker)
    requires SlotsAddUp(w)
    ensures |w.slots| + |w.running| == w.max
  {
    assert |w.slots + w.running.Keys| == |w.slots| + |w.running.Keys|;
  }

  /** So pending messages are never stranded: some wake-up lies ready, is about to be
      sent, or a handler is still at work and will send one. */
  lemma NeverStranded(w: Worker)
    requires LocalInv(w) && Waits(w) && w.pending != []
    ensures w.tokens > 0 || w.returned > 0 || w.running != map[]
  {
    if w.slots == {} {
      SlotCount(w);
    }
  }

  // ---- what the worker holds ----

  /** The messages that reached the worker and have no handler yet, oldest first. */
  function Waitlist(w: Worker): seq<ItemId> {
    w.pending + w.channel + (if w.hand.Some? then [w.hand.value] else [])
  }

  predicate Distinct(ids: seq<ItemId>) {
    forall i, j :: 0 <= i < j < |ids| ==> ids[i] != ids[j]
  }

  predicate IsHandling(running: map<nat, Handler>, slot: nat) {
    slot in running && !running[slot].settled
  }

  /** Each message the worker has not settled is in flight, held in one place, and held
      by no other consumer; what others hold is in flight too. */
  ghost predicate Held(line: seq<ItemId>, running: map<nat, Handler>, inflight: set<ItemId>, others: set<ItemId>) {
    others <= inflight && Distinct(line) &&
    (forall id :: id in line ==> id in inflight - others) &&
    (forall slot :: IsHandling(running, slot) ==> running[slot].id in inflight - others && running[slot].id !in line) &&
    (forall a, b :: IsHandling(running, a) && IsHandling(running, b) && a != b ==> running[a].id != running[b].id)
  }

  ghost predicate Holding(s: System) {
    Conserved(s.ledger) && Held(Waitlist(s.w), s.w.running, s.ledger.bus.inflight.Keys, s.others)
  }

  lemma HeldFetch(line: seq<ItemId>, running: map<nat, Handler>, inflight: set<ItemId>, others: set<ItemId>, id: ItemId)
    requires Held(line, running, inflight, others) && id !in inflight
    ensures Held(line + [id], running, inflight + {id}, others)
    ensures Held(line, running, inflight + {id}, others + {id})
  {
    DistinctSnoc(line, id);
  }

  lemma DistinctSnoc(ids: seq<ItemId>, last: ItemId)
    requires Distinct(ids) && last !in ids
    ensures Distinct(ids + [last])
  {
  }

  lemma HeldDispatch(first: ItemId, line: seq<ItemId>, running: map<nat, Handler>, inflight: set<ItemId>,
                     others: set<ItemId>, slot: nat)
    requires Held([first] + line, running, inflight, others) && slot !in running
    ensures Held(line, running[slot := Handler(first, false)], inflight, others)
  {
    DistinctTail(first, line);
    assert first in [first] + line && forall id :: id in line ==> id in [first] + line;
    var running' := running[slot := Handler(first, false)];
    assert forall other :: IsHandling(running', other) && other != slot ==> IsHandling(running, other);
  }

  lemma HeldSendBack(first: ItemId, line: seq<ItemId>, running: map<nat, Handler>, inflight: set<ItemId>,
                     others: set<ItemId>)
    requires Held([first] + line, running, inflight, others)
    ensures Held(line, running, inflight - {first}, others) && first in inflight
  {
    DistinctTail(first, line);
    assert first in [first] + line && forall id :: id in line ==> id in [first] + line;
  }

  lemma HeldSettle(line: seq<ItemId>, running: map<nat, Handler>, inflight: set<ItemId>, others: set<ItemId>, slot: nat)
    requires Held(line, running, inflight, others) && IsHandling(running, slot)
    ensures Held(line, running[slot := running[slot].(settled := true)], inflight - {running[slot].id}, others)
  {
    var running' := running[slot := running[slot].(settled := true)];
    assert forall other :: IsHandling(running', other) ==> IsHandling(running, other) && other != slot;
  }

  lemma HeldReturn(line: seq<ItemId>, running: map<nat, Handler>, inflight: set<ItemId>, others: set<ItemId>, slot: nat)
    requires Held(line, running, inflight, others)
    ensures Held(line, running - {slot}, inflight, others)
  {
    assert forall other :: IsHandling(running - {slot}, other) ==> IsHandling(running, other);
  }

  lemma HeldElsewhere(line: seq<ItemId>, running: map<nat, Handler>, inflight: set<ItemId>, others: set<ItemId>,
                      id: ItemId)
    requires Held(line, running, inflight, others) && id in others
    ensures Held(line, running, inflight - {id}, others - {id})
  {
  }

  lemma TakenIsNew(l: Ledger, queue: string)
    requires Conserved(l) && TakenId(l, queue).Some?
    ensures TakenId(l, queue).value !in l.bus.inflight
    ensures Record(l, Take(queue)).bus.inflight.Keys == l.bus.inflight.Keys + {TakenId(l, queue).value}
  {
    assert ItemFits(l, queue, QueueOf(l.bus, queue)[0]);
  }

  lemma LedgerConserved(s: System, step: Step)
    requires Conserved(s.ledger) && Enabled(s, step)
    ensures Conserved(NextLedger(s, step))
  {
    if BusEvent(s, step).Some? {
      EventConserves(s.ledger, BusEvent(s, step).value);
    }
  }

  lemma ReceiveWaitlist(s: System)
    requires Enabled(s, Receive)
    ensures Waitlist(NextWorker(s, Receive)) == Waitlist(s.w)
  {
    assert s.w.channel == [s.w.channel[0]] + s.w.channel[1..];
    MoveOver(s.w.pending, s.w.channel[1..], s.w.channel[0]);
  }

  lemma DeliverWaitlist(s: System)
    requires Enabled(s, Deliver)
    ensures Waitlist(NextWorker(s, Deliver)) == Waitlist(s.w)
  {
    MoveOver(s.w.pending + s.w.channel, [], s.w.hand.value);
  }

  lemma MoveOver(a: seq<ItemId>, b: seq<ItemId>, id: ItemId)
    ensures a + [id] + b == a + ([id] + b)
  {
  }

  /** The oldest message leaves the front of the line. */
  lemma HandOverWaitlist(s: System, step: Step)
    requires Enabled(s, step) && (step.Dispatch? || step.SendBack?)
    ensures Waitlist(s.w) == [s.w.pending[0]] + Waitlist(NextWorker(s, step))
  {
    HeadOut(s.w.pending, s.w.channel, if s.w.hand.Some? then [s.w.hand.value] else []);
  }

  lemma HeadOut(a: seq<ItemId>, b: seq<ItemId>, c: seq<ItemId>)
    requires a != []
    ensures a + b + c == [a[0]] + (a[1..] + b + c)
  {
  }

  lemma DistinctTail(first: ItemId, rest: seq<ItemId>)
    requires Distinct([first] + rest)
    ensures Distinct(rest) && first !in rest
  {
    var all := [first] + rest;
    forall i | 0 <= i < |rest|
      ensures rest[i] != first
    {
      assert all[0] == first && all[i + 1] == rest[i];
    }
    forall i, j | 0 <= i < j < |rest|
      ensures rest[i] != rest[j]
    {
      assert all[i + 1] == rest[i] && all[j + 1] == rest[j];
    }
  }

  ghost function InFlight(s: System): set<ItemId> {
    s.ledger.bus.inflight.Keys
  }

  lemma FetchKeepsHolding(s: System)
    requires Holding(s) && Enabled(s, Fetch)
    ensures Holding(Next(s, Fetch))
  {
    LedgerConserved(s, Fetch);
    var line, taken := Waitlist(s.w), TakenId(s.ledger, s.w.queue);
    var line' := Waitlist(NextWorker(s, Fetch));
    if taken.Some? {
      TakenIsNew(s.ledger, s.w.queue);
      assert line' == line + [taken.value];
      HeldFetch(line, s.w.running, InFlight(s), s.others, taken.value);
    } else {
      assert line' == line;
    }
  }

  lemma OtherTakeKeepsHolding(s: System, queue: string)
    requires Holding(s)
    ensures Holding(Next(s, OtherTake(queue)))
  {
    LedgerConserved(s, OtherTake(queue));
    if TakenId(s.ledger, queue).Some? {
      TakenIsNew(s.ledger, queue);
      HeldFetch(Waitlist(s.w), s.w.running, InFlight(s), s.others, TakenId(s.ledger, queue).value);
    }
  }

  lemma OtherSettleKeepsHolding(s: System, id: ItemId, job: Option<Job>)
    requires Holding(s) && id in s.others
    ensures Holding(Next(s, OtherSettle(id, job)))
  {
    LedgerConserved(s, OtherSettle(id, job));
    HeldElsewhere(Waitlist(s.w), s.w.running, InFlight(s), s.others, id);
    assert InFlight(Next(s, OtherSettle(id, job))) == InFlight(s) - {id};
  }

  lemma DispatchKeepsHolding(s: System, slot: nat)
    requires Holding(s) && Enabled(s, Dispatch(slot)) && slot !in s.w.running
    ensures Holding(Next(s, Dispatch(slot)))
  {
    HandOverWaitlist(s, Dispatch(slot));
    HeldDispatch(s.w.pending[0], Waitlist(NextWorker(s, Dispatch(slot))), s.w.running, InFlight(s), s.others, slot);
  }

  lemma SendBackKeepsHolding(s: System)
    requires Holding(s) && Enabled(s, SendBack)
    ensures Holding(Next(s, SendBack))
  {
    LedgerConserved(s, SendBack);
    HandOverWaitlist(s, SendBack);
    HeldSendBack(s.w.pending[0], Waitlist(NextWorker(s, SendBack)), s.w.running, InFlight(s), s.others);
    assert InFlight(Next(s, SendBack)) == InFlight(s) - {s.w.pending[0]};
  }

  lemma SettleKeepsHolding(s: System, slot: nat, job: Job)
    requires Holding(s) && Enabled(s, Settle(slot, job))
    ensures Holding(Next(s, Settle(slot, job)))
  {
    LedgerConserved(s, Settle(slot, job));
    HeldSettle(Waitlist(s.w), s.w.running, InFlight(s), s.others, slot);
    assert InFlight(Next(s, Settle(slot, job))) == InFlight(s) - {s.w.running[slot].id};
  }

  lemma StepKeepsHolding(s: System, step: Step)
    requires LocalInv(s.w) && Holding(s) && Enabled(s, step)
    ensures Holding(Next(s, step))
  {
    LedgerConserved(s, step);
    match step
    case OtherTake(queue) => OtherTakeKeepsHolding(s, queue);
    case OtherSettle(id, job) => OtherSettleKeepsHolding(s, id, job);
    case Fetch => FetchKeepsHolding(s);
    case Dispatch(slot) => DispatchKeepsHolding(s, slot);
    case SendBack => SendBackKeepsHolding(s);
    case Settle(slot, job) => SettleKeepsHolding(s, slot, job);
    case Return(slot) => HeldReturn(Waitlist(s.w), s.w.running, InFlight(s), s.others, slot);
    case Receive => ReceiveWaitlist(s);
    case Deliver => DeliverWaitlist(s);
    case _ =>
  }

  ghost predicate Inv(s: System) {
    LocalInv(s.w) && Holding(s)
  }

  lemma StepKeepsInv(s: System, step: Step)
    requires Inv(s) && Enabled(s, step)
    ensures Inv(Next(s, step))
  {
    StepKeepsLocal(s, step);
    StepKeepsHolding(s, step);
  }

  ghost predicate Legal(s: System, steps: seq<Step>)
    decreases |steps|
  {
    steps == [] || (Enabled(s, steps[0]) && Legal(Next(s, steps[0]), steps[1..]))
  }

  ghost function Run(s: System, steps: seq<Step>): System
    requires Legal(s, steps)
    decreases |steps|
  {
    if steps == [] then s else Run(Next(s, steps[0]), steps[1..])
  }

  /** Over all interleavings: the slots add up, no wake-up is lost, messages start in
      arrival order, and every unsettled message is in flight for this worker alone. */
  lemma {:induction false} AlwaysInv(s: System, steps: seq<Step>)
    requires Inv(s) && Legal(s, steps)
    ensures Inv(Run(s, steps))
    decreases |steps|
  {
    if steps != [] {
      StepKeepsInv(s, steps[0]);
      AlwaysInv(Next(s, steps[0]), steps[1..]);
    }
  }

  /** A handler's settlement always meets its own delivery: the item is in flight then, and
      it is acknowledged for good when the handling is final, and queued once more otherwise. */
  lemma SettlementTakesEffect(s: System, slot: nat, job: Job)
    requires Inv(s) && Enabled(s, Settle(slot, job))
    ensures var id := s.w.running[slot].id; var l := Next(s, Settle(slot, job)).ledger;
      id in s.ledger.bus.inflight && id in s.ledger.accepted && id in l.accepted &&
      (IsFinal(job) ==> id in l.acked && !IsQueued(l, id)) && (!IsFinal(job) ==> IsQueued(l, id) && id !in l.acked)
  {
    hide LocalInv;
    assert IsHandling(s.w.running, slot);
    AnswerTakesEffect(s.ledger, s.w.running[slot].id, job);
  }

  lemma AnswerTakesEffect(l: Ledger, id: ItemId, job: Job)
    requires Conserved(l) && id in l.bus.inflight
    ensures var after := Record(l, Answer(id, job));
      id in l.accepted && after.accepted == l.accepted && id !in l.acked && Conserved(after) &&
      (IsFinal(job) ==> after.acked == l.acked + {id} && !IsQueued(after, id)) &&
      (!IsFinal(job) ==> after.acked == l.acked && IsQueued(after, id))
  {
    var after := Record(l, Answer(id, job));
    EventConserves(l, Answer(id, job));
    assert id !in after.bus.inflight;
    ExactlyOnePlace(after, id);
    ExactlyOnePlace(l, id);
  }

  /** The events a run of the worker leaves on the bus, in order. */
  ghost function BusEvents(s: System, steps: seq<Step>): seq<Event>
    requires Legal(s, steps)
    decreases |steps|
  {
    if steps == [] then [] else
      var e := BusEvent(s, steps[0]);
      (if e.Some? then [e.value] else []) + BusEvents(Next(s, steps[0]), steps[1..])
  }

  lemma {:induction false} RunIsRecorded(s: System, steps: seq<Step>)
    requires Legal(s, steps)
    ensures Run(s, steps).ledger == RecordAll(s.ledger, BusEvents(s, steps))
    decreases |steps|
  {
    if steps != [] {
      RunIsRecorded(Next(s, steps[0]), steps[1..]);
      var e := BusEvent(s, steps[0]);
      var rest := BusEvents(Next(s, steps[0]), steps[1..]);
      if e.Some? {
        assert ([e.value] + rest)[1..] == rest;
      } else {
        assert [] + rest == rest;
      }
    }
  }

  /** No message is both acknowledged and redelivered: once a handling was final, no run of
      this worker and all others is ever handed the message again. */
  lemma AckedNeverRedelivered(s: System, slot: nat, job: Job, steps: seq<Step>)
    requires Inv(s) && Enabled(s, Settle(slot, job)) && IsFinal(job) && Legal(Next(s, Settle(slot, job)), steps)
    ensures var id := s.w.running[slot].id; var t := Next(s, Settle(slot, job));
      |t.ledger.handed| <= |Run(t, steps).ledger.handed| && id !in Run(t, steps).ledger.handed[|t.ledger.handed|..]
  {
    var t := Next(s, Settle(slot, job));
    SettlementTakesEffect(s, slot, job);
    LedgerConserved(s, Settle(slot, job));
    RunIsRecorded(t, steps);
    AckIsFinal(t.ledger, BusEvents(t, steps), s.w.running[slot].id);
  }

  // ---- what an ended loop leaves behind ----

  /** The main loop has returned, or has nothing left to do but wait for its handlers. */
  predicate Ended(w: Worker) {
    w.mode.Failed? || (!w.mode.Serving? && w.pending == [])
  }

  /** Messages the worker took and has not settled. */
  predicate Holds(w: Worker, id: ItemId) {
    id in Waitlist(w) || exists slot :: slot in w.running && IsHandling(w.running, slot) && w.running[slot].id == id
  }

  ghost predicate StaysInFlight(s: System, id: ItemId) {
    forall steps :: Legal(s, steps) ==> id in Run(s, steps).ledger.bus.inflight
  }

  lemma EndedKeeps(s: System, step: Step)
    requires Inv(s) && Ended(s.w) && Enabled(s, step)
    ensures Ended(Next(s, step).w)
    ensures forall id :: id in Waitlist(s.w) ==> id in Waitlist(Next(s, step).w)
  {
    hide Inv, Conserved, Held;
    BusyMode(s);
    match step
    case Receive => assert false;
    case Deliver => DeliverWaitlist(s);
    case _ =>
  }

  lemma BusyMode(s: System)
    requires Inv(s)
    ensures s.w.busy ==> s.w.mode.Serving? || s.w.mode.Draining?
  {
  }

  lemma WaitingIsHeld(s: System, id: ItemId)
    requires Inv(s) && id in Waitlist(s.w)
    ensures id in s.ledger.bus.inflight
  {
  }

  lemma {:induction false} Stranded(s: System, steps: seq<Step>, id: ItemId)
    requires Inv(s) && Ended(s.w) && id in Waitlist(s.w) && Legal(s, steps)
    ensures id in Waitlist(Run(s, steps).w) && id in Run(s, steps).ledger.bus.inflight
    decreases |steps|
  {
    hide Inv, Enabled, Next, Ended, Waitlist;
    if steps == [] {
      WaitingIsHeld(s, id);
    } else {
      StepKeepsInv(s, steps[0]);
      EndedKeeps(s, steps[0]);
      Stranded(Next(s, steps[0]), steps[1..], id);
    }
  }

  /** A message with a handler leaves the in-flight table by the handler's next step. */
  lemma SettleRun(s: System, slot: nat)
    requires Inv(s) && IsHandling(s.w.running, slot)
    ensures Legal(s, [Settle(slot, UNREADABLE)])
    ensures s.w.running[slot].id !in Run(s, [Settle(slot, UNREADABLE)]).ledger.bus.inflight
  {
    hide Inv, Conserved;
    var step := Settle(slot, UNREADABLE);
    assert [step][1..] == [];
    assert Legal(Next(s, step), []) && Run(Next(s, step), []) == Next(s, step);
  }

  /** Exactly which messages an ended loop loses: of those it held, the ones that never got
      a handler, be they pending, in the consumer's channel, or in its hand.  They stay in
      flight whatever happens, neither acknowledged nor queued again. */
  lemma StrandedIff(s: System, id: ItemId)
    requires Inv(s) && Ended(s.w) && Holds(s.w, id)
    ensures StaysInFlight(s, id) <==> id in Waitlist(s.w)
  {
    hide Inv, Ended, Waitlist;
    if id in Waitlist(s.w) {
      forall steps | Legal(s, steps)
        ensures id in Run(s, steps).ledger.bus.inflight
      {
        Stranded(s, steps, id);
      }
    } else {
      var slot :| slot in s.w.running && IsHandling(s.w.running, slot) && s.w.running[slot].id == id;
      SettleRun(s, slot);
    }
  }

  /** A failed heartbeat ends the loop at once, with everything it was still waiting on. */
  lemma FailedHeartbeatStrands(s: System, id: ItemId)
    requires Inv(s) && Enabled(s, HeartbeatFails) && Holds(s.w, id)
    ensures StaysInFlight(Next(s, HeartbeatFails), id) <==> id in s.w.pending + s.w.channel || s.w.hand == Some(id)
  {
    hide Inv;
    StepKeepsInv(s, HeartbeatFails);
    StrandedIff(Next(s, HeartbeatFails), id);
  }

  // ---- such a state is reached ----

  predicate Moves(s: System, step: Step, t: System) {
    Enabled(s, step) && Next(s, step) == t
  }

  predicate MovesAlong(states: seq<System>, steps: seq<Step>) {
    |states| == |steps| + 1 && forall i :: 0 <= i < |steps| ==> Moves(states[i], steps[i], states[i + 1])
  }

  lemma {:induction false} RunAlong(states: seq<System>, steps: seq<Step>)
    requires MovesAlong(states, steps)
    ensures Legal(states[0], steps) && Run(states[0], steps) == states[|steps|]
    decreases |steps|
  {
    hide Enabled, Next;
    if steps != [] {
      assert Moves(states[0], steps[0], states[1]);
      assert forall i :: 0 <= i < |steps[1..]| ==> Moves(states[1..][i], steps[1..][i], states[1..][i + 1]);
      RunAlong(states[1..], steps[1..]);
    }
  }

  const FIRST := ItemId("q", 1)
  const SECOND := ItemId("q", 2)

  /** A bus with two messages: those still queued, those in flight, those handed out. */
  function TwoMessages(queued: seq<Item>, inflight: map<ItemId, Item>, handed: seq<ItemId>): Ledger {
    Ledger(Bus(map["q" := queued], inflight, 2, false), map[FIRST := "a", SECOND := "b"], {}, {}, handed)
  }

  function OneMessage(): Ledger {
    Ledger(Bus(map["q" := [Item(FIRST, "a")]], map[], 1, false), map[FIRST := "a"], {}, {}, [])
  }

  /** A worker with one slot that has no message yet, then the first one. */
  function Idle(): Worker {
    Worker("q", 1, Serving, false, None, [], [], {0}, map[], 0, 0, [], [], [])
  }

  function Handling(): Worker {
    Worker("q", 1, Serving, false, None, [], [], {}, map[0 := Handler(FIRST, false)], 0, 0, [FIRST], [FIRST], [])
  }

  function NoneTaken(): Ledger {
    TwoMessages([Item(FIRST, "a"), Item(SECOND, "b")], map[], [])
  }

  function OneTaken(): Ledger {
    TwoMessages([Item(SECOND, "b")], map[FIRST := Item(FIRST, "a")], [FIRST])
  }

  function BothTaken(): Ledger {
    TwoMessages([], map[FIRST := Item(FIRST, "a"), SECOND := Item(SECOND, "b")], [FIRST, SECOND])
  }

  lemma BothProduced()
    ensures Moves(System(EMPTY_LEDGER, Idle(), {}), Produce("q", "a"), System(OneMessage(), Idle(), {}))
    ensures Moves(System(OneMessage(), Idle(), {}), Produce("q", "b"), System(NoneTaken(), Idle(), {}))
  {
    var a, b := Item(FIRST, "a"), Item(SECOND, "b");
    assert [] + [a] == [a] && [a] + [b] == [a, b];
    assert map["q" := [a]]["q" := [a, b]] == map["q" := [a, b]];
    assert map[FIRST := "a"][SECOND := "b"] == map[FIRST := "a", SECOND := "b"];
    assert map[]["q" := [a]] == map["q" := [a]] && map[][FIRST := "a"] == map[FIRST := "a"];
  }

  lemma FirstArrives()
    ensures Moves(System(NoneTaken(), Idle(), {}), Fetch, System(OneTaken(), Idle().(hand := Some(FIRST)), {}))
    ensures Moves(System(OneTaken(), Idle().(hand := Some(FIRST)), {}), Deliver,
                  System(OneTaken(), Idle().(channel := [FIRST]), {}))
    ensures Moves(System(OneTaken(), Idle().(channel := [FIRST]), {}), Receive,
                  System(OneTaken(), Idle().(pending := [FIRST], received := [FIRST], busy := true), {}))
  {
  }

  lemma FirstStarts()
    ensures Moves(System(OneTaken(), Idle().(pending := [FIRST], received := [FIRST], busy := true), {}), Dispatch(0),
                  System(OneTaken(), Handling().(busy := true), {}))
    ensures Moves(System(OneTaken(), Handling().(busy := true), {}), Rest, System(OneTaken(), Handling(), {}))
  {
  }

  lemma SecondArrives()
    ensures Moves(System(OneTaken(), Handling(), {}), Fetch, System(BothTaken(), Handling().(hand := Some(SECOND)), {}))
    ensures Moves(System(BothTaken(), Handling().(hand := Some(SECOND)), {}), Deliver,
                  System(BothTaken(), Handling().(channel := [SECOND]), {}))
  {
  }

  /** Two messages come in for one slot: the first is being handled, the second pending. */
  function Full(): Worker {
    Handling().(pending := [SECOND], received := [FIRST, SECOND])
  }

  lemma SecondWaits()
    ensures Moves(System(BothTaken(), Handling().(channel := [SECOND]), {}), Receive,
                  System(BothTaken(), Full().(busy := true), {}))
    ensures Moves(System(BothTaken(), Full().(busy := true), {}), Rest, System(BothTaken(), Full(), {}))
    ensures Moves(System(BothTaken(), Full(), {}), HeartbeatFails, System(BothTaken(), Full().(mode := Failed), {}))
  {
  }

  const LOSING_RUN := [
    Produce("q", "a"), Produce("q", "b"), Fetch, Deliver, Receive, Dispatch(0), Rest, Fetch, Deliver, Receive, Rest,
    HeartbeatFails]

  lemma LosingRunIs()
    ensures var first, last := System(EMPTY_LEDGER, Idle(), {}), System(BothTaken(), Full().(mode := Failed), {});
      Legal(first, LOSING_RUN) && Run(first, LOSING_RUN) == last
  {
    hide Moves, TwoMessages, Idle, Handling, OneMessage, NoneTaken, OneTaken, BothTaken, Full, Legal, Run;
    var states := [System(EMPTY_LEDGER, Idle(), {}), System(OneMessage(), Idle(), {}), System(NoneTaken(), Idle(), {}),
      System(OneTaken(), Idle().(hand := Some(FIRST)), {}), System(OneTaken(), Idle().(channel := [FIRST]), {}),
      System(OneTaken(), Idle().(pending := [FIRST], received := [FIRST], busy := true), {}),
      System(OneTaken(), Handling().(busy := true), {}), System(OneTaken(), Handling(), {}),
      System(BothTaken(), Handling().(hand := Some(SECOND)), {}),
      System(BothTaken(), Handling().(channel := [SECOND]), {}),
      System(BothTaken(), Full().(busy := true), {}), System(BothTaken(), Full(), {}),
      System(BothTaken(), Full().(mode := Failed), {})];
    BothProduced();
    FirstArrives();
    FirstStarts();
    SecondArrives();
    SecondWaits();
    RunAlong(states, LOSING_RUN);
  }

  /** From a fresh worker on an empty bus: a run that ends with a message lost for good. */
  lemma LossIsReached()
    ensures var start := System(EMPTY_LEDGER, Idle(), {});
      Inv(start) && Legal(start, LOSING_RUN) &&
      Run(start, LOSING_RUN).w.mode.Failed? && SECOND in Run(start, LOSING_RUN).w.pending &&
      StaysInFlight(Run(start, LOSING_RUN), SECOND)
  {
    hide StaysInFlight, Inv, Legal, Run;
    var start := System(EMPTY_LEDGER, Idle(), {});
    EmptyLedgerFits();
    assert AllSlots(1) == {0};
    FreshWorker(EMPTY_LEDGER, "q", 1, {});
    LosingRunIs();
    AlwaysInv(start, LOSING_RUN);
    StrandedIff(Run(start, LOSING_RUN), SECOND);
  }

  function SendBacks(n: nat): (steps: seq<Step>)
    ensures |steps| == n
  {
    if n == 0 then [] else [SendBack] + SendBacks(n - 1)
  }

  lemma NackKeepsQueued(l: Ledger, id: ItemId)
    ensures Record(l, Nack(id)).accepted == l.accepted
    ensures forall x :: x in l.accepted && IsQueued(l, x) ==> IsQueued(Record(l, Nack(id)), x)
  {
  }

  lemma NackedIsQueued(l: Ledger, id: ItemId)
    requires Conserved(l) && id in l.bus.inflight
    ensures id in l.accepted && IsQueued(Record(l, Nack(id)), id)
  {
  }

  lemma OneSentBack(s: System)
    requires Inv(s) && s.w.mode.Stopping? && s.w.pending != []
    ensures Enabled(s, SendBack)
    ensures var t := Next(s, SendBack); var id := s.w.pending[0];
      Inv(t) && t.w.mode.Stopping? && t.w.pending == s.w.pending[1..] && t.w.channel == s.w.channel &&
      t.w.hand == s.w.hand &&
      id in t.ledger.accepted && IsQueued(t.ledger, id)
    ensures forall id :: id in s.ledger.accepted && IsQueued(s.ledger, id) ==>
      id in Next(s, SendBack).ledger.accepted && IsQueued(Next(s, SendBack).ledger, id)
  {
    hide IsQueued, Record, Inv, Conserved, LocalInv;
    var id := s.w.pending[0];
    StepKeepsInv(s, SendBack);
    PendingIsHeld(s, id);
    NackedIsQueued(s.ledger, id);
    NackKeepsQueued(s.ledger, id);
  }

  lemma PendingIsHeld(s: System, id: ItemId)
    requires Inv(s) && id in s.w.pending
    ensures Conserved(s.ledger) && id in s.ledger.bus.inflight
  {
    assert id in Waitlist(s.w);
  }

  /** After a cancelled context every pending message is queued again and the loop is at
      its end; but only the pending ones: what lies in the consumer's channel or in its
      hand is not sent back, and StrandedIff says that it is lost. */
  lemma {:induction false} CancelSendsBack(s: System)
    requires Inv(s) && s.w.mode.Stopping?
    ensures Legal(s, SendBacks(|s.w.pending|))
    ensures var t := Run(s, SendBacks(|s.w.pending|));
      Inv(t) && Ended(t.w) && t.w.pending == [] && t.w.channel == s.w.channel && t.w.hand == s.w.hand &&
      (forall id :: id in s.w.pending ==> id in t.ledger.accepted && IsQueued(t.ledger, id)) &&
      (forall id :: id in s.ledger.accepted && IsQueued(s.ledger, id) ==>
        id in t.ledger.accepted && IsQueued(t.ledger, id))
    decreases |s.w.pending|
  {
    hide Inv, Enabled, Next, IsQueued;
    var n := |s.w.pending|;
    if n > 0 {
      OneSentBack(s);
      assert SendBacks(n)[1..] == SendBacks(n - 1);
      CancelSendsBack(Next(s, SendBack));
      assert s.w.pending == [s.w.pending[0]] + s.w.pending[1..];
    }
  }

  /** The worker as Start sets it up on any bus. */
  lemma FreshWorker(l: Ledger, queue: string, max: nat, others: set<ItemId>)
    requires Conserved(l) && max >= 1 && others <= l.bus.inflight.Keys
    ensures Inv(System(l, Worker(queue, max, Serving, false, None, [], [], AllSlots(max), map[], 0, 0, [], [], []),
                       others))
  {
    hide AllSlots, Conserved;
    var w := Worker(queue, max, Serving, false, None, [], [], AllSlots(max), map[], 0, 0, [], [], []);
    assert SlotsAddUp(w) && NoLostWakeUp(w) && ArrivalOrder(w);
    assert Waitlist(w) == [];
  }
}
