/** Runs and crashes.  A run recovers first, then its workers move tasks through the
    store; it may die between any two steps, and the next run starts from the file. */
module RunLife {
  import opened Contracts
  import opened Recovery
  import opened StateStore
  import opened StoreHistory
  import opened Wrappers

  /** Where the operations of the current run have put a task. */
  datatype Phase = Idle | Flying | Landed | Stuck

  /** The order in which the dispatcher and one worker use the store for a task. */
  function After(phase: Phase, op: Op): Option<Phase> {
    match op
    case MarkInFlight(_) => if phase.Idle? then Some(Flying) else None
    case MarkCompleted(_) => if phase.Flying? then Some(Landed) else None
    case MarkBlocked(_, _) => if phase.Flying? || phase.Landed? then Some(Stuck) else None
    case ClearTerminal(_) => if phase.Landed? || phase.Stuck? then Some(Idle) else None
    case ClearInFlight(_) => if phase.Flying? then Some(Idle) else None
    case Recover => None
  }

  /** A whole sequence of operations of one worker on one task. */
  function AfterAll(phase: Phase, ops: seq<Op>): Option<Phase>
    decreases |ops|
  {
    if ops == [] then Some(phase) else
      var next := After(phase, ops[0]);
      if next.None? then None else AfterAll(next.value, ops[1..])
  }

  lemma {:induction false} AfterAllAppend(phase: Phase, ops: seq<Op>, op: Op)
    requires AfterAll(phase, ops).Some?
    ensures AfterAll(phase, ops + [op]) == After(AfterAll(phase, ops).value, op)
    decreases |ops|
  {
    if ops != [] {
      assert (ops + [op])[1..] == ops[1..] + [op];
      AfterAllAppend(After(phase, ops[0]).value, ops[1..], op);
    } else {
      assert AfterAll(phase, [op]) == After(phase, op) by {
        if After(phase, op).Some? {
          assert AfterAll(After(phase, op).value, []) == After(phase, op);
        }
      }
    }
  }

  datatype Life = Life(sys: System, recovered: bool, phases: map<TaskId, Phase>)
  datatype LifeEvent = Do(event: Event) | Crash

  function PhaseOf(l: Life, t: TaskId): Phase {
    if t in l.phases then l.phases[t] else Idle
  }

  /** Recovery comes first and alone; after it an operation is one the task is ready for. */
  ghost predicate InTurn(l: Life, op: Op) {
    if op.Recover? then !l.recovered else l.recovered && After(PhaseOf(l, op.task), op).Some?
  }

  ghost predicate LifeEnabled(l: Life, e: LifeEvent) {
    e.Do? ==> Enabled(l.sys, e.event) && (e.event.Begin? ==> InTurn(l, e.event.op))
  }

  ghost function LifeStep(l: Life, e: LifeEvent): Life
    requires LifeEnabled(l, e)
  {
    match e
    case Crash => Life(System(l.sys.file, map[]), false, map[])
    case Do(Begin(_, _)) => l.(sys := Step(l.sys, e.event))
    case Do(Commit(w)) =>
      var op := l.sys.pending[w].op;
      if op.Recover? then Life(Step(l.sys, e.event), true, map[])
      else
        var next := After(PhaseOf(l, op.task), op);
        Life(Step(l.sys, e.event), l.recovered, if next.Some? then l.phases[op.task := next.value] else l.phases)
  }

  ghost predicate LifeLegal(l: Life, events: seq<LifeEvent>)
    decreases |events|
  {
    events == [] || (LifeEnabled(l, events[0]) && LifeLegal(LifeStep(l, events[0]), events[1..]))
  }

  ghost function LifeRun(l: Life, events: seq<LifeEvent>): Life
    requires LifeLegal(l, events)
    decreases |events|
  {
    if events == [] then l else LifeRun(LifeStep(l, events[0]), events[1..])
  }

  ghost predicate SitsIn(v: View, t: TaskId, phase: Phase) {
    (t in v.inFlight <==> phase.Flying?) && (t in v.completed <==> phase.Landed?) && (t in v.blocked <==> phase.Stuck?)
  }

  ghost predicate LifeInv(l: Life) {
    Coherent(l.sys) && Exclusive(l.sys.file) &&
    (forall w :: w in l.sys.pending ==> InTurn(l, l.sys.pending[w].op)) &&
    (l.recovered ==> forall t :: SitsIn(l.sys.file, t, PhaseOf(l, t)))
  }

  lemma AtomicFollowsPhase(v: View, op: Op, t: TaskId, phase: Phase)
    requires !op.Recover? && SitsIn(v, t, phase)
    requires op.task == t ==> After(phase, op).Some?
    ensures SitsIn(Atomic(op, v), t, if op.task == t then After(phase, op).value else phase)
  {
  }

  lemma CommitKeepsPhases(l: Life, w: nat)
    requires LifeInv(l) && w in l.sys.pending && l.recovered
    ensures var l' := LifeStep(l, Do(Commit(w))); forall t :: SitsIn(l'.sys.file, t, PhaseOf(l', t))
  {
    var l' := LifeStep(l, Do(Commit(w)));
    var op := l.sys.pending[w].op;
    StepKeepsCoherent(l.sys, Commit(w));
    forall t: TaskId
      ensures SitsIn(l'.sys.file, t, PhaseOf(l', t))
    {
      AtomicFollowsPhase(l.sys.file, op, t, PhaseOf(l, t));
      assert SitsIn(Atomic(op, l.sys.file), t, PhaseOf(l', t));
    }
  }

  lemma PhasesExclude(l: Life)
    requires forall t :: SitsIn(l.sys.file, t, PhaseOf(l, t))
    ensures Exclusive(l.sys.file)
  {
    var v := l.sys.file;
    forall t: TaskId
      ensures !(t in v.inFlight && t in v.completed) && !(t in v.inFlight && t in v.blocked) &&
        !(t in v.completed && t in v.blocked)
    {
      assert SitsIn(v, t, PhaseOf(l, t));
    }
  }

  lemma RecoveredIsEmpty(v: View)
    ensures SameSets(Atomic(Recover, v), EMPTY_VIEW)
  {
  }

  lemma LifeStepKeepsInv(l: Life, e: LifeEvent)
    requires LifeInv(l) && LifeEnabled(l, e)
    ensures LifeInv(LifeStep(l, e))
  {
    if e.Do? {
      StepKeepsCoherent(l.sys, e.event);
      if e.event.Commit? {
        var w := e.event.worker;
        var op := l.sys.pending[w].op;
        if l.recovered {
          CommitKeepsPhases(l, w);
          PhasesExclude(LifeStep(l, e));
        } else {
          assert InTurn(l, op);
          RecoveredIsEmpty(l.sys.file);
        }
      } else {
        assert forall t :: PhaseOf(LifeStep(l, e), t) == PhaseOf(l, t);
      }
    }
  }

  /** In every state reachable by any runs and any crashes between saves, each task is in
      at most one of the three sets; while a run is on, in the one its phase says. */
  lemma {:induction false} AlwaysExclusive(l: Life, events: seq<LifeEvent>)
    requires LifeInv(l) && LifeLegal(l, events)
    ensures LifeInv(LifeRun(l, events))
    ensures Exclusive(LifeRun(l, events).sys.file)
    decreases |events|
  {
    if events != [] {
      LifeStepKeepsInv(l, events[0]);
      AlwaysExclusive(LifeStep(l, events[0]), events[1..]);
    }
  }

  // ---- when an interleaving is in turn ----

  function Wrapped(events: seq<Event>): (wrapped: seq<LifeEvent>)
    ensures |wrapped| == |events|
  {
    if events == [] then [] else [Do(events[0])] + Wrapped(events[1..])
  }

  predicate IsOn(op: Op, t: TaskId) {
    !op.Recover? && op.task == t
  }

  predicate OpenOn(l: Life, t: TaskId) {
    exists w :: w in l.sys.pending && IsOn(l.sys.pending[w].op, t)
  }

  /** Where the task will be once the operation open on it, if any, has been saved. */
  ghost function Due(l: Life, t: TaskId): Option<Phase> {
    if OpenOn(l, t) then
      var w :| w in l.sys.pending && IsOn(l.sys.pending[w].op, t);
      After(PhaseOf(l, t), l.sys.pending[w].op)
    else
      Some(PhaseOf(l, t))
  }

  /** The operations that the events begin on a task, in order. */
  function BegunOn(events: seq<Event>, t: TaskId): seq<Op> {
    if events == [] then [] else
      (if events[0].Begin? && IsOn(events[0].op, t) then [events[0].op] else []) + BegunOn(events[1..], t)
  }

  predicate NoRecovery(events: seq<Event>) {
    forall i :: 0 <= i < |events| && events[i].Begin? ==> !events[i].op.Recover?
  }

  predicate Follows(phase: Option<Phase>, ops: seq<Op>) {
    phase.Some? && AfterAll(phase.value, ops).Some?
  }

  lemma DueOf(l: Life, w: nat)
    requires Coherent(l.sys) && w in l.sys.pending && !l.sys.pending[w].op.Recover?
    ensures var op := l.sys.pending[w].op; Due(l, op.task) == After(PhaseOf(l, op.task), op)
  {
    var op := l.sys.pending[w].op;
    assert IsOn(op, op.task);
    forall u | u in l.sys.pending && IsOn(l.sys.pending[u].op, op.task)
      ensures u == w
    {
      assert Overlap(l.sys.pending[u].op, op);
    }
  }

  lemma NothingOpen(l: Life, w: nat, op: Op)
    requires Enabled(l.sys, Begin(w, op)) && !op.Recover?
    ensures !OpenOn(l, op.task) && Due(l, op.task) == Some(PhaseOf(l, op.task))
  {
    forall u | u in l.sys.pending
      ensures !IsOn(l.sys.pending[u].op, op.task)
    {
      assert !Overlap(l.sys.pending[u].op, op);
    }
  }

  lemma SamePendingOn(l: Life, m: Life, t: TaskId)
    requires Coherent(l.sys) && Coherent(m.sys) && PhaseOf(l, t) == PhaseOf(m, t)
    requires forall w :: w in l.sys.pending && IsOn(l.sys.pending[w].op, t) ==>
      w in m.sys.pending && m.sys.pending[w] == l.sys.pending[w]
    requires forall w :: w in m.sys.pending && IsOn(m.sys.pending[w].op, t) ==>
      w in l.sys.pending && m.sys.pending[w] == l.sys.pending[w]
    ensures Due(l, t) == Due(m, t)
  {
    if OpenOn(l, t) {
      var w :| w in l.sys.pending && IsOn(l.sys.pending[w].op, t);
      DueOf(l, w);
      DueOf(m, w);
    }
  }

  lemma DueAfterBegin(l: Life, w: nat, op: Op, t: TaskId)
    requires LifeInv(l) && LifeEnabled(l, Do(Begin(w, op))) && !op.Recover?
    ensures Due(LifeStep(l, Do(Begin(w, op))), t) == if IsOn(op, t) then After(PhaseOf(l, t), op) else Due(l, t)
  {
    var m := LifeStep(l, Do(Begin(w, op)));
    LifeStepKeepsInv(l, Do(Begin(w, op)));
    if IsOn(op, t) {
      DueOf(m, w);
    } else {
      SamePendingOn(l, m, t);
    }
  }

  lemma DueAfterCommit(l: Life, w: nat, t: TaskId)
    requires LifeInv(l) && l.recovered && w in l.sys.pending
    ensures Due(LifeStep(l, Do(Commit(w))), t) == Due(l, t)
  {
    var op := l.sys.pending[w].op;
    var m := LifeStep(l, Do(Commit(w)));
    LifeStepKeepsInv(l, Do(Commit(w)));
    assert InTurn(l, op);
    if IsOn(op, t) {
      DueOf(l, w);
      forall u | u in m.sys.pending
        ensures !IsOn(m.sys.pending[u].op, t)
      {
        assert !Overlap(l.sys.pending[u].op, op);
      }
    } else {
      SamePendingOn(l, m, t);
    }
  }

  lemma AllDue(l: Life, t: TaskId)
    requires LifeInv(l) && l.recovered
    ensures Due(l, t).Some?
  {
    if OpenOn(l, t) {
      var w :| w in l.sys.pending && IsOn(l.sys.pending[w].op, t);
      assert InTurn(l, l.sys.pending[w].op);
      DueOf(l, w);
    }
  }

  /** No two operations on one task overlap, none recovers, and those of each task, taken
      by themselves, follow its phases. */
  ghost predicate AllFollow(l: Life, events: seq<Event>) {
    NoRecovery(events) && Legal(l.sys, events) && forall t :: Follows(Due(l, t), BegunOn(events, t))
  }

  lemma NoRecoveryTail(events: seq<Event>)
    requires events != []
    ensures NoRecovery(events) <==> (events[0].Begin? ==> !events[0].op.Recover?) && NoRecovery(events[1..])
  {
    if NoRecovery(events) {
      assert forall i :: 0 <= i < |events[1..]| ==> events[1..][i] == events[i + 1];
    } else {
      var i :| 0 <= i < |events| && events[i].Begin? && events[i].op.Recover?;
      assert i > 0 ==> events[1..][i - 1] == events[i];
    }
  }

  lemma BeginFollows(l: Life, w: nat, op: Op, events: seq<Event>)
    requires LifeInv(l) && l.recovered && events != [] && events[0] == Begin(w, op) && Enabled(l.sys, Begin(w, op))
    ensures AllFollow(l, events) ==> LifeEnabled(l, Do(events[0]))
    ensures LifeEnabled(l, Do(events[0])) ==>
      (AllFollow(l, events) <==> AllFollow(LifeStep(l, Do(events[0])), events[1..]))
  {
    hide Due, LifeInv;
    NoRecoveryTail(events);
    if !op.Recover? {
      NothingOpen(l, w, op);
      assert IsOn(op, op.task);
      BegunFirst(l, op, events);
      if LifeEnabled(l, Do(events[0])) {
        forall t: TaskId
          ensures Follows(Due(l, t), BegunOn(events, t)) <==>
            Follows(Due(LifeStep(l, Do(events[0])), t), BegunOn(events[1..], t))
        {
          DueAfterBegin(l, w, op, t);
          BegunStep(events, t);
          FirstFollows(PhaseOf(l, t), op, BegunOn(events[1..], t));
        }
      }
    }
  }

  lemma BegunStep(events: seq<Event>, t: TaskId)
    requires events != [] && events[0].Begin?
    ensures BegunOn(events, t) ==
      if IsOn(events[0].op, t) then [events[0].op] + BegunOn(events[1..], t) else BegunOn(events[1..], t)
  {
  }

  lemma FirstFollows(phase: Phase, op: Op, ops: seq<Op>)
    ensures Follows(Some(phase), [op] + ops) <==> Follows(After(phase, op), ops)
  {
    assert ([op] + ops)[1..] == ops;
  }

  lemma BegunFirst(l: Life, op: Op, events: seq<Event>)
    requires events != [] && events[0].Begin? && events[0].op == op && !op.Recover?
    ensures AllFollow(l, events) && Due(l, op.task) == Some(PhaseOf(l, op.task)) ==>
      After(PhaseOf(l, op.task), op).Some?
  {
    assert BegunOn(events, op.task)[0] == op;
  }

  lemma CommitFollows(l: Life, w: nat, events: seq<Event>)
    requires LifeInv(l) && l.recovered && events != [] && events[0] == Commit(w) && w in l.sys.pending
    ensures AllFollow(l, events) <==> AllFollow(LifeStep(l, Do(events[0])), events[1..])
  {
    hide Due, LifeInv;
    NoRecoveryTail(events);
    forall t: TaskId
      ensures Due(LifeStep(l, Do(events[0])), t) == Due(l, t)
      ensures BegunOn(events, t) == BegunOn(events[1..], t)
    {
      DueAfterCommit(l, w, t);
    }
  }

  /** While a run is on, an interleaving of any number of workers is one the exclusivity
      theorem covers exactly when no two operations on one task overlap and those of each
      task, taken by themselves, follow its phases. */
  lemma {:induction false} InTurnIff(l: Life, events: seq<Event>)
    requires LifeInv(l) && l.recovered
    ensures LifeLegal(l, Wrapped(events)) <==> AllFollow(l, events)
    decreases |events|
  {
    hide LifeInv, AllFollow, LifeEnabled;
    if events == [] {
      NothingFollows(l);
    } else {
      var e, rest := events[0], events[1..];
      assert Wrapped(events)[1..] == Wrapped(rest);
      if Enabled(l.sys, e) {
        match e {
          case Begin(w, op) => BeginFollows(l, w, op, events);
          case Commit(w) => CommitFollows(l, w, events);
        }
        if LifeEnabled(l, Do(e)) {
          LifeStepKeepsInv(l, Do(e));
          StillRecovered(l, e);
          InTurnIff(LifeStep(l, Do(e)), rest);
        } else {
          CommitsAreEnabled(l, e);
        }
      } else {
        NotEnabled(l, events);
      }
    }
  }

  lemma NothingFollows(l: Life)
    requires LifeInv(l) && l.recovered
    ensures AllFollow(l, [])
  {
    forall t: TaskId
      ensures Follows(Due(l, t), BegunOn([], t))
    {
      AllDue(l, t);
    }
  }

  lemma StillRecovered(l: Life, e: Event)
    requires l.recovered && LifeEnabled(l, Do(e))
    ensures LifeStep(l, Do(e)).recovered
  {
  }

  lemma CommitsAreEnabled(l: Life, e: Event)
    requires Enabled(l.sys, e) && !LifeEnabled(l, Do(e))
    ensures e.Begin?
  {
  }

  lemma NotEnabled(l: Life, events: seq<Event>)
    requires events != [] && !Enabled(l.sys, events[0])
    ensures !LifeEnabled(l, Do(events[0])) && !AllFollow(l, events)
  {
  }

  /** A first run on a file without an entry, and a run on the file of a crashed one. */
  lemma FreshLife(file: View)
    requires Exclusive(file)
    ensures LifeInv(Life(System(file, map[]), false, map[]))
  {
  }

  /** A recovery that crashed before its save has done its work for some of the tasks. */
  function PartlyRecovered(status: map<TaskId, TaskStatus>, v: View, done: set<TaskId>): map<TaskId, TaskStatus> {
    status + map t | t in done && t in Known(v) :: RecoveredAs(v, t)
  }

  /** So recovery, whenever it comes, gives every task on record the status its one set
      stands for; and when it crashes before its save, with any part of its work done, the
      next one finds the same file and ends with the same statuses. */
  lemma RecoveryOfAnyCrash(l: Life, events: seq<LifeEvent>, t: TaskId, status: map<TaskId, TaskStatus>,
                           done: set<TaskId>)
    requires LifeInv(l) && LifeLegal(l, events)
    requires t in Known(LifeRun(l, events).sys.file)
    ensures var v := LifeRun(l, events).sys.file; RecoveredAs(v, t) == Intended(v, t)
    ensures LifeLegal(l, events + [Crash])
    ensures var v := LifeRun(l, events).sys.file; var found := LifeRun(l, events + [Crash]).sys.file;
      RecoveredStatus(PartlyRecovered(status, v, done), found) == RecoveredStatus(status, v)
  {
    AlwaysExclusive(l, events);
    ExclusiveRecovery(LifeRun(l, events).sys.file, t);
    CrashAppends(l, events);
  }

  lemma {:induction false} CrashAppends(l: Life, events: seq<LifeEvent>)
    requires LifeLegal(l, events)
    ensures LifeLegal(l, events + [Crash]) && LifeRun(l, events + [Crash]).sys.file == LifeRun(l, events).sys.file
    decreases |events|
  {
    if events != [] {
      assert (events + [Crash])[1..] == events[1..] + [Crash];
      CrashAppends(LifeStep(l, events[0]), events[1..]);
    } else {
      var l' := LifeStep(l, Crash);
      assert LifeLegal(l', []) && LifeRun(l', []) == l';
      assert ([] + [Crash])[1..] == [];
    }
  }
}
