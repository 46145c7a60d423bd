/** What becomes of a message, told by how it was handled: over all interleavings of the
    workers of a queue (internal/distributed/worker_runtime.go, handleQueueMessage) it is
    acknowledged exactly when some handling was final, and otherwise can be handled again. */
module QueueJobs {
  import opened MemoryBus
  import opened QueueWorker
  import opened Wrappers

  datatype Handling = Handling(id: ItemId, job: Job)

  /** The handling a step is the end of. */
  function Handled(s: System, step: Step): Option<Handling>
    requires Enabled(s, step)
  {
    match step
    case Settle(slot, job) => Some(Handling(s.w.running[slot].id, job))
    case OtherSettle(id, theirs) => if theirs.Some? then Some(Handling(id, theirs.value)) else None
    case _ => None
  }

  /** All handlings of a run, in order. */
  ghost function Handlings(s: System, steps: seq<Step>): seq<Handling>
    requires Legal(s, steps)
    decreases |steps|
  {
    if steps == [] then [] else
      var h := Handled(s, steps[0]);
      (if h.Some? then [h.value] else []) + Handlings(Next(s, steps[0]), steps[1..])
  }

  ghost predicate FinallyHandled(hs: seq<Handling>, id: ItemId) {
    exists i :: 0 <= i < |hs| && hs[i].id == id && IsFinal(hs[i].job)
  }

  lemma HandledIsInFlight(s: System, step: Step)
    requires Inv(s) && Enabled(s, step) && Handled(s, step).Some?
    ensures var h := Handled(s, step).value;
      Conserved(s.ledger) && h.id in s.ledger.bus.inflight &&
      Next(s, step).ledger == Record(s.ledger, Answer(h.id, h.job))
  {
    if step.Settle? {
      assert IsHandling(s.w.running, step.slot);
    }
  }

  /** What one handling does to its message, whoever's it is. */
  lemma HandlingDecides(s: System, step: Step)
    requires Inv(s) && Enabled(s, step) && Handled(s, step).Some?
    ensures var h := Handled(s, step).value; var l := Next(s, step).ledger;
      h.id in l.accepted && (IsFinal(h.job) ==> l.acked == s.ledger.acked + {h.id} && !IsQueued(l, h.id)) &&
      (!IsFinal(h.job) ==> l.acked == s.ledger.acked && IsQueued(l, h.id))
  {
    hide Inv, Handled, IsFinal, Conserved;
    HandledIsInFlight(s, step);
    var h := Handled(s, step).value;
    AnswerTakesEffect(s.ledger, h.id, h.job);
  }

  lemma OthersAckNothing(s: System, step: Step)
    requires Enabled(s, step) && Handled(s, step).None?
    ensures Next(s, step).ledger.acked == s.ledger.acked
  {
  }

  lemma OneMoreHandling(first: Option<Handling>, rest: seq<Handling>, id: ItemId)
    ensures FinallyHandled((if first.Some? then [first.value] else []) + rest, id) <==>
      (first.Some? && first.value.id == id && IsFinal(first.value.job)) || FinallyHandled(rest, id)
  {
    var all := (if first.Some? then [first.value] else []) + rest;
    if FinallyHandled(rest, id) {
      var i :| 0 <= i < |rest| && rest[i].id == id && IsFinal(rest[i].job);
      assert all[i + |all| - |rest|] == rest[i];
    }
    if first.Some? {
      assert all[0] == first.value && all[1..] == rest;
    } else {
      assert all == rest;
    }
  }

  /** Over all interleavings: exactly the messages with a final handling are acknowledged.
      One meant for another worker, or stopped by a transient fault, never is for that. */
  lemma {:induction false} AckedIff(s: System, steps: seq<Step>, id: ItemId)
    requires Inv(s) && Legal(s, steps)
    ensures id in Run(s, steps).ledger.acked <==> id in s.ledger.acked || FinallyHandled(Handlings(s, steps), id)
    decreases |steps|
  {
    hide Inv, Enabled, Next, Handled, IsFinal, FinallyHandled;
    if steps == [] {
      NoHandlings(id);
    } else {
      StepKeepsInv(s, steps[0]);
      AckedIff(Next(s, steps[0]), steps[1..], id);
      var h := Handled(s, steps[0]);
      OneMoreHandling(h, Handlings(Next(s, steps[0]), steps[1..]), id);
      if h.Some? {
        HandlingDecides(s, steps[0]);
      } else {
        OthersAckNothing(s, steps[0]);
      }
    }
  }

  lemma NoHandlings(id: ItemId)
    ensures !FinallyHandled([], id)
  {
  }

  /** So a message without a final handling is never lost: after any run it waits in its
      queue or is with a worker. */
  lemma StaysAvailable(s: System, steps: seq<Step>, id: ItemId)
    requires Inv(s) && Legal(s, steps) && id in s.ledger.accepted && id !in s.ledger.acked
    requires !FinallyHandled(Handlings(s, steps), id)
    ensures var l := Run(s, steps).ledger; id in l.accepted && (IsQueued(l, id) || id in l.bus.inflight)
  {
    hide Inv, FinallyHandled;
    AckedIff(s, steps, id);
    AlwaysInv(s, steps);
    StaysAccepted(s, steps, id);
    LedgerOf(Run(s, steps));
    ExactlyOnePlace(Run(s, steps).ledger, id);
  }

  lemma LedgerOf(s: System)
    requires Inv(s)
    ensures Conserved(s.ledger)
  {
  }

  lemma {:induction false} StaysAccepted(s: System, steps: seq<Step>, id: ItemId)
    requires Legal(s, steps) && id in s.ledger.accepted
    ensures id in Run(s, steps).ledger.accepted
    decreases |steps|
  {
    if steps != [] {
      StaysAccepted(Next(s, steps[0]), steps[1..], id);
    }
  }

  function OthersTake(queue: string, n: nat): (steps: seq<Step>)
    ensures |steps| == n
  {
    if n == 0 then [] else [OtherTake(queue)] + OthersTake(queue, n - 1)
  }

  ghost predicate StandsAt(l: Ledger, id: ItemId, i: nat) {
    id in l.accepted && i < |QueueOf(l.bus, id.queue)| && QueueOf(l.bus, id.queue)[i] == Original(l, id)
  }

  lemma OneTaken(s: System, id: ItemId, i: nat)
    requires Inv(s) && StandsAt(s.ledger, id, i)
    ensures var t := Next(s, OtherTake(id.queue));
      if i == 0 then id in t.others else StandsAt(t.ledger, id, i - 1)
  {
    hide LocalInv, Held;
  }

  /** A queued message reaches another worker by as many takes as its place in the queue. */
  lemma {:induction false} IsTakenAgain(s: System, id: ItemId, i: nat)
    requires Inv(s) && StandsAt(s.ledger, id, i)
    ensures var steps := OthersTake(id.queue, i + 1); Legal(s, steps) && id in Run(s, steps).others
    decreases i
  {
    hide Inv, StandsAt, NextLedger;
    var step := OtherTake(id.queue);
    StepKeepsInv(s, step);
    OneTaken(s, id, i);
    assert OthersTake(id.queue, i + 1)[1..] == OthersTake(id.queue, i);
    if i > 0 {
      IsTakenAgain(Next(s, step), id, i - 1);
    }
  }

  /** A message handled without an end, by a worker that does not meet its requirements or
      stopped by a transient fault, is queued at once and can be taken again. */
  lemma HandedOn(s: System, step: Step)
    requires Inv(s) && Enabled(s, step) && Handled(s, step).Some? && !IsFinal(Handled(s, step).value.job)
    ensures var id, t := Handled(s, step).value.id, Next(s, step);
      exists n: nat :: Legal(t, OthersTake(id.queue, n)) && id in Run(t, OthersTake(id.queue, n)).others
  {
    hide Inv, IsFinal, Handled;
    var id, t := Handled(s, step).value.id, Next(s, step);
    HandlingDecides(s, step);
    StepKeepsInv(s, step);
    var i: nat :| i < |QueueOf(t.ledger.bus, id.queue)| && QueueOf(t.ledger.bus, id.queue)[i] == Original(t.ledger, id);
    assert StandsAt(t.ledger, id, i);
    IsTakenAgain(t, id, i);
    assert Legal(t, OthersTake(id.queue, i + 1));
  }
}
