/** The whole agent loop and its store (internal/agent/loop.go with scheduler_state.go):
    the dispatcher marks what it picks, each worker makes the store operations of its task
    run, and everything interleaves, between the Load and the Save of an operation too.
    What the exclusivity of the store asks for is derived here from the loop. */
module LoopLife {
  import D = Dispatcher
  import H = StoreHistory
  import opened Recovery
  import opened RunLife
  import opened StateStore
  import opened TaskLife
  import opened TaskRun
  import opened Wrappers

  /** How far the dispatcher is with recording its pick as in flight. */
  datatype Stage = Unmarked | Opened | Saved

  /** The store operations a worker has still to make, and how its task will end. */
  datatype Script = Script(ops: seq<H.Op>, ok: bool)

  /** In the store the dispatcher is worker 0 and worker w of the loop is w + 1. */
  datatype Crew = Crew(d: D.System, life: Life, stage: Stage, scripts: map<nat, Script>)

  datatype Act =
    | Plain(step: D.Step)
    | MarkBegins | MarkSaves | MarkEnds(ok: bool)
    | Takes(worker: nat, trace: seq<Entry>, ok: bool)
    | OpBegins(worker: nat) | OpSaves(worker: nat) | Ends(worker: nat)

  predicate IsPlain(step: D.Step) {
    !step.Marked? && !step.HandOver? && !step.Finish?
  }

  predicate Runs(c: Crew, w: nat) {
    w < |c.d.workers| && c.d.workers[w].Running? && w in c.scripts
  }

  /** What the goroutines of the loop may do next, going by their own code alone. */
  predicate Enabled(c: Crew, a: Act) {
    match a
    case Plain(step) => IsPlain(step) && D.Enabled(c.d, step)
    case MarkBegins => c.d.at.Marking? && c.stage == Unmarked
    case MarkSaves => c.d.at.Marking? && c.stage == Opened && 0 in c.life.sys.pending
    case MarkEnds(ok) => c.d.at.Marking? && c.stage == if ok then Saved else Unmarked
    case Takes(w, trace, ok) => D.Enabled(c.d, D.HandOver(w)) && RunsAs(c.d.at.task, trace, ok)
    case OpBegins(w) => Runs(c, w) && w + 1 !in c.life.sys.pending && c.scripts[w].ops != []
    case OpSaves(w) => Runs(c, w) && w + 1 in c.life.sys.pending
    case Ends(w) => Runs(c, w) && w + 1 !in c.life.sys.pending && c.scripts[w].ops == []
  }

  function Loaded(l: Life, w: nat, op: H.Op): Life {
    l.(sys := l.sys.(pending := l.sys.pending[w := H.Pending(op, l.sys.file)]))
  }

  ghost function Next(c: Crew, a: Act): Crew
    requires Enabled(c, a)
  {
    match a
    case Plain(step) => c.(d := D.Next(c.d, step), stage := if step.Choose? then Unmarked else c.stage)
    case MarkBegins => c.(life := Loaded(c.life, 0, H.MarkInFlight(c.d.at.task)), stage := Opened)
    case MarkSaves => c.(life := LifeStep(c.life, Do(H.Commit(0))), stage := Saved)
    case MarkEnds(ok) => c.(d := D.Next(c.d, D.Marked(ok)))
    case Takes(w, trace, ok) =>
      c.(d := D.Next(c.d, D.HandOver(w)), scripts := c.scripts[w := Script(Recorded(trace), ok)])
    case OpBegins(w) =>
      c.(life := Loaded(c.life, w + 1, c.scripts[w].ops[0]),
         scripts := c.scripts[w := c.scripts[w].(ops := c.scripts[w].ops[1..])])
    case OpSaves(w) => c.(life := LifeStep(c.life, Do(H.Commit(w + 1))))
    case Ends(w) => c.(d := D.Next(c.d, D.Finish(w, c.scripts[w].ok)))
  }

  /** What an act does to the store. */
  function StoreEvent(c: Crew, a: Act): Option<LifeEvent>
    requires Enabled(c, a)
  {
    match a
    case MarkBegins => Some(Do(H.Begin(0, H.MarkInFlight(c.d.at.task))))
    case MarkSaves => Some(Do(H.Commit(0)))
    case OpBegins(w) => Some(Do(H.Begin(w + 1, c.scripts[w].ops[0])))
    case OpSaves(w) => Some(Do(H.Commit(w + 1)))
    case _ => None
  }

  // ---- invariant ----

  /** An open operation belongs to the goroutine that has the task. */
  predicate Owned(c: Crew, k: nat)
    requires k in c.life.sys.pending
  {
    var op := c.life.sys.pending[k].op;
    if k == 0 then c.d.at.Marking? && c.stage == Opened && op == H.MarkInFlight(c.d.at.task)
    else k - 1 < |c.d.workers| && c.d.workers[k - 1].Running? && IsOn(op, c.d.workers[k - 1].task)
  }

  predicate Owners(c: Crew) {
    forall k :: k in c.life.sys.pending ==> Owned(c, k)
  }

  predicate PickFits(c: Crew) {
    (c.d.at.Marking? ==> (c.stage == Opened <==> 0 in c.life.sys.pending)) &&
    (c.d.at.Marking? ==> PhaseOf(c.life, c.d.at.task) == if c.stage == Saved then Flying else Idle) &&
    (c.d.at.Sending? ==> PhaseOf(c.life, c.d.at.task) == Flying)
  }

  /** Where a worker's task is once its open operation is saved. */
  function Ahead(c: Crew, w: nat, t: TaskId): Option<Phase> {
    if w + 1 in c.life.sys.pending then After(PhaseOf(c.life, t), c.life.sys.pending[w + 1].op)
    else Some(PhaseOf(c.life, t))
  }

  predicate ScriptFits(phase: Option<Phase>, t: TaskId, s: Script) {
    Follows(phase, s.ops) && (s.ok ==> AfterAll(phase.value, s.ops) == Some(Idle)) &&
    forall op :: op in s.ops ==> IsOn(op, t)
  }

  predicate WorkerFits(c: Crew, w: nat)
    requires w < |c.d.workers|
  {
    match c.d.workers[w]
    case Running(t) => w in c.scripts && ScriptFits(Ahead(c, w, t), t, c.scripts[w])
    case Reporting(t, ok) => ok ==> PhaseOf(c.life, t) == Idle
    case _ => true
  }

  predicate WorkersFit(c: Crew) {
    forall w: nat :: w < |c.d.workers| ==> WorkerFits(c, w)
  }

  predicate ResultsFit(c: Crew) {
    forall i :: 0 <= i < |c.d.results| && c.d.results[i].ok ==> PhaseOf(c.life, c.d.results[i].task) == Idle
  }

  predicate InHand(d: D.System, t: TaskId) {
    t in d.inFlight || (d.at.Marking? && d.at.task == t)
  }

  /** What the dispatcher may still pick is idle. */
  ghost predicate RestIdle(c: Crew) {
    c.d.at.Returned? || forall t :: !InHand(c.d, t) ==> PhaseOf(c.life, t) == Idle
  }

  ghost predicate CrewFits(c: Crew) {
    Owners(c) && PickFits(c) && WorkersFit(c) && ResultsFit(c) && RestIdle(c)
  }

  ghost predicate CrewInv(c: Crew) {
    D.Inv(c.d) && LifeInv(c.life) && c.life.recovered && CrewFits(c)
  }

  // ---- the store events are in turn ----

  lemma MarkInTurn(c: Crew)
    requires CrewInv(c) && Enabled(c, MarkBegins)
    ensures LifeEnabled(c.life, StoreEvent(c, MarkBegins).value)
  {
    var t := c.d.at.task;
    forall k | k in c.life.sys.pending
      ensures !H.Overlap(c.life.sys.pending[k].op, H.MarkInFlight(t))
    {
      assert Owned(c, k);
    }
  }

  lemma OpInTurn(c: Crew, w: nat)
    requires CrewInv(c) && Enabled(c, OpBegins(w))
    ensures LifeEnabled(c.life, StoreEvent(c, OpBegins(w)).value)
  {
    var t := c.d.workers[w].task;
    var op := c.scripts[w].ops[0];
    assert WorkerFits(c, w);
    assert op in c.scripts[w].ops;
    forall k | k in c.life.sys.pending
      ensures !H.Overlap(c.life.sys.pending[k].op, op)
    {
      assert Owned(c, k);
    }
  }

  lemma StoreEventEnabled(c: Crew, a: Act)
    requires CrewInv(c) && Enabled(c, a) && StoreEvent(c, a).Some?
    ensures LifeEnabled(c.life, StoreEvent(c, a).value) && Next(c, a).life == LifeStep(c.life, StoreEvent(c, a).value)
  {
    hide CrewInv;
    match a
    case MarkBegins => MarkInTurn(c);
    case OpBegins(w) => OpInTurn(c, w);
    case _ =>
  }

  // ---- every act keeps the invariant ----

  lemma LifeKeeps(c: Crew, a: Act)
    requires CrewInv(c) && Enabled(c, a)
    ensures LifeInv(Next(c, a).life) && Next(c, a).life.recovered
  {
    hide CrewFits;
    if StoreEvent(c, a).Some? {
      StoreEventEnabled(c, a);
      LifeStepKeepsInv(c.life, StoreEvent(c, a).value);
      StillInRun(c.life, StoreEvent(c, a).value);
    }
  }

  lemma StillInRun(l: Life, e: LifeEvent)
    requires LifeInv(l) && l.recovered && LifeEnabled(l, e) && e.Do?
    ensures LifeStep(l, e).recovered
  {
  }

  lemma DispatcherKeeps(c: Crew, a: Act)
    requires CrewInv(c) && Enabled(c, a)
    ensures D.Inv(Next(c, a).d)
  {
    hide D.Inv, CrewFits, LifeInv;
    match a
    case Plain(step) => D.StepKeepsInv(c.d, step);
    case MarkEnds(ok) => D.StepKeepsInv(c.d, D.Marked(ok));
    case Takes(w, _, _) => D.StepKeepsInv(c.d, D.HandOver(w));
    case Ends(w) => D.StepKeepsInv(c.d, D.Finish(w, c.scripts[w].ok));
    case _ =>
  }

  lemma MarkBeginsFits(c: Crew)
    requires CrewInv(c) && Enabled(c, MarkBegins)
    ensures CrewFits(Next(c, MarkBegins))
  {
    var c' := Next(c, MarkBegins);
    forall k | k in c'.life.sys.pending
      ensures Owned(c', k)
    {
      assert k != 0 ==> Owned(c, k);
    }
    SameWorkers(c, c');
  }

  /** Nothing changes for a worker while its own open operation and the phase of its task do not. */
  lemma SameWorkers(c: Crew, c': Crew)
    requires WorkersFit(c) && c'.d.workers == c.d.workers
    requires forall w: nat :: w < |c.d.workers| && (c.d.workers[w].Running? || c.d.workers[w].Reporting?) ==>
      SameFor(c, c', w)
    ensures WorkersFit(c')
  {
    forall w: nat | w < |c'.d.workers|
      ensures WorkerFits(c', w)
    {
      assert WorkerFits(c, w);
    }
  }

  predicate SameFor(c: Crew, c': Crew, w: nat)
    requires w < |c.d.workers| && (c.d.workers[w].Running? || c.d.workers[w].Reporting?)
  {
    var t := c.d.workers[w].task;
    PhaseOf(c'.life, t) == PhaseOf(c.life, t) && Ahead(c', w, t) == Ahead(c, w, t) &&
    (w in c.scripts ==> w in c'.scripts && c'.scripts[w] == c.scripts[w])
  }

  lemma SavedPhase(l: Life, k: nat, t: TaskId)
    requires LifeInv(l) && l.recovered && k in l.sys.pending && !l.sys.pending[k].op.Recover?
    ensures var op := l.sys.pending[k].op; var l' := LifeStep(l, Do(H.Commit(k)));
      l'.sys.pending == l.sys.pending - {k} && After(PhaseOf(l, op.task), op).Some? &&
      PhaseOf(l', t) == if t == op.task then After(PhaseOf(l, op.task), op).value else PhaseOf(l, t)
  {
    assert InTurn(l, l.sys.pending[k].op);
  }

  lemma MarkSavesFits(c: Crew)
    requires CrewInv(c) && Enabled(c, MarkSaves)
    ensures CrewFits(Next(c, MarkSaves))
  {
    hide LifeInv, LifeStep;
    var c' := Next(c, MarkSaves);
    assert Owned(c, 0);
    forall t: TaskId
      ensures PhaseOf(c'.life, t) == if t == c.d.at.task then Flying else PhaseOf(c.life, t)
    {
      SavedPhase(c.life, 0, t);
    }
    SavedPhase(c.life, 0, c.d.at.task);
    forall k | k in c'.life.sys.pending
      ensures Owned(c', k)
    {
      assert Owned(c, k);
    }
    SameWorkers(c, c');
  }

  lemma ScriptStep(phase: Phase, t: TaskId, s: Script)
    requires ScriptFits(Some(phase), t, s) && s.ops != []
    ensures IsOn(s.ops[0], t) && After(phase, s.ops[0]).Some?
    ensures ScriptFits(After(phase, s.ops[0]), t, s.(ops := s.ops[1..]))
  {
    assert s.ops[0] in s.ops && s.ops == [s.ops[0]] + s.ops[1..];
  }

  lemma OpBeginsFits(c: Crew, w: nat)
    requires CrewInv(c) && Enabled(c, OpBegins(w))
    ensures CrewFits(Next(c, OpBegins(w)))
  {
    hide LifeInv, D.Inv, ScriptFits, After;
    var c' := Next(c, OpBegins(w));
    var t := c.d.workers[w].task;
    assert WorkerFits(c, w);
    ScriptStep(PhaseOf(c.life, t), t, c.scripts[w]);
    forall k | k in c'.life.sys.pending
      ensures Owned(c', k)
    {
      assert k != w + 1 ==> Owned(c, k);
    }
    forall v: nat | v < |c'.d.workers|
      ensures WorkerFits(c', v)
    {
      assert WorkerFits(c, v);
    }
  }

  lemma OpSavesOwners(c: Crew, w: nat)
    requires CrewInv(c) && Enabled(c, OpSaves(w))
    ensures Owners(Next(c, OpSaves(w)))
  {
    hide LifeInv, LifeStep, ScriptFits, D.Inv, WorkersFit;
    OpSavesPhases(c, w);
    forall k | k in Next(c, OpSaves(w)).life.sys.pending
      ensures Owned(Next(c, OpSaves(w)), k)
    {
      assert Owned(c, k);
    }
  }

  lemma OpSavesWorkers(c: Crew, w: nat)
    requires CrewInv(c) && Enabled(c, OpSaves(w))
    ensures WorkersFit(Next(c, OpSaves(w)))
  {
    hide LifeInv, LifeStep, ScriptFits, D.InFlightAccounted, D.Bounded, Owners;
    var c' := Next(c, OpSaves(w));
    OpSavesPhases(c, w);
    assert WorkerFits(c, w);
    forall v: nat | v < |c'.d.workers|
      ensures WorkerFits(c', v)
    {
      assert WorkerFits(c, v);
      assert v != w && !c.d.workers[v].Free? ==> c.d.workers[v].task != c.d.workers[w].task;
    }
  }

  lemma OpSavesPhases(c: Crew, w: nat)
    requires CrewInv(c) && Enabled(c, OpSaves(w))
    ensures var c' := Next(c, OpSaves(w)); var t := c.d.workers[w].task;
      c'.life.sys.pending == c.life.sys.pending - {w + 1} && Ahead(c, w, t) == Some(PhaseOf(c'.life, t)) &&
      forall u: TaskId :: u != t ==> PhaseOf(c'.life, u) == PhaseOf(c.life, u)
  {
    hide LifeStep, ScriptFits;
    var t := c.d.workers[w].task;
    assert Owned(c, w + 1) && WorkerFits(c, w);
    forall u: TaskId
      ensures u != t ==> PhaseOf(Next(c, OpSaves(w)).life, u) == PhaseOf(c.life, u)
    {
      SavedPhase(c.life, w + 1, u);
    }
    SavedPhase(c.life, w + 1, t);
  }

  lemma OpSavesFits(c: Crew, w: nat)
    requires CrewInv(c) && Enabled(c, OpSaves(w))
    ensures CrewFits(Next(c, OpSaves(w)))
  {
    hide LifeInv, LifeStep, ScriptFits, Owners, WorkersFit, WorkerFits;
    OpSavesOwners(c, w);
    OpSavesWorkers(c, w);
    OpSavesPhases(c, w);
    TaskIsBusy(c.d, w);
  }

  /** A task at work is in flight, in no result, and not in the dispatcher's hand. */
  lemma TaskIsBusy(d: D.System, w: nat)
    requires D.Inv(d) && w < |d.workers| && D.IsBusy(d.workers[w])
    ensures d.workers[w].task in d.inFlight
    ensures forall i :: 0 <= i < |d.results| ==> d.results[i].task != d.workers[w].task
    ensures d.at.Sending? || d.at.Marking? ==> d.at.task != d.workers[w].task
  {
    assert !D.InResults(d.results, d.workers[w].task);
  }

  lemma MarkEndsFits(c: Crew, ok: bool)
    requires CrewInv(c) && Enabled(c, MarkEnds(ok))
    ensures CrewFits(Next(c, MarkEnds(ok)))
  {
    hide LifeInv, D.Inv;
    var c' := Next(c, MarkEnds(ok));
    forall k | k in c'.life.sys.pending
      ensures Owned(c', k)
    {
      assert Owned(c, k);
    }
    SameWorkers(c, c');
  }

  lemma TakesFits(c: Crew, w: nat, trace: seq<Entry>, ok: bool)
    requires CrewInv(c) && Enabled(c, Takes(w, trace, ok))
    ensures CrewFits(Next(c, Takes(w, trace, ok)))
  {
    hide LifeInv, D.Inv;
    var c' := Next(c, Takes(w, trace, ok));
    TraceFollowsPhases(c.d.at.task, trace);
    forall k | k in c'.life.sys.pending
      ensures Owned(c', k) && k != w + 1
    {
      assert Owned(c, k);
    }
    forall v: nat | v < |c'.d.workers|
      ensures WorkerFits(c', v)
    {
      assert WorkerFits(c, v);
    }
  }

  lemma EndsFits(c: Crew, w: nat)
    requires CrewInv(c) && Enabled(c, Ends(w))
    ensures CrewFits(Next(c, Ends(w)))
  {
    hide LifeInv, D.Inv;
    var c' := Next(c, Ends(w));
    assert WorkerFits(c, w);
    forall k | k in c'.life.sys.pending
      ensures Owned(c', k)
    {
      assert Owned(c, k);
    }
    forall v: nat | v < |c'.d.workers|
      ensures WorkerFits(c', v)
    {
      assert WorkerFits(c, v);
    }
  }

  /** Steps of the loop that leave the store alone. */
  lemma PlainKeepsOwners(c: Crew, step: D.Step)
    requires CrewInv(c) && Enabled(c, Plain(step))
    ensures Owners(Next(c, Plain(step))) && WorkersFit(Next(c, Plain(step)))
  {
    hide LifeInv, D.Inv;
    var c' := Next(c, Plain(step));
    forall k | k in c'.life.sys.pending
      ensures Owned(c', k)
    {
      assert Owned(c, k);
    }
    forall v: nat | v < |c'.d.workers|
      ensures WorkerFits(c', v)
    {
      assert WorkerFits(c, v);
    }
  }

  lemma ChooseFits(c: Crew, next: seq<TaskId>)
    requires CrewInv(c) && Enabled(c, Plain(D.Choose(next)))
    ensures CrewFits(Next(c, Plain(D.Choose(next))))
  {
    hide LifeInv, D.Inv;
    PlainKeepsOwners(c, D.Choose(next));
    forall k | k in c.life.sys.pending
      ensures k != 0
    {
      assert Owned(c, k);
    }
  }

  lemma ReportFits(c: Crew, w: nat)
    requires CrewInv(c) && Enabled(c, Plain(D.Report(w)))
    ensures CrewFits(Next(c, Plain(D.Report(w))))
  {
    hide LifeInv, D.Inv;
    PlainKeepsOwners(c, D.Report(w));
    assert WorkerFits(c, w);
  }

  lemma CollectFits(c: Crew)
    requires CrewInv(c) && Enabled(c, Plain(D.Collect))
    ensures CrewFits(Next(c, Plain(D.Collect)))
  {
    hide LifeInv, D.Inv;
    PlainKeepsOwners(c, D.Collect);
    assert forall i :: 0 <= i < |c.d.results| - 1 ==> c.d.results[1..][i] == c.d.results[i + 1];
  }

  lemma PlainFits(c: Crew, step: D.Step)
    requires CrewInv(c) && Enabled(c, Plain(step))
    ensures CrewFits(Next(c, Plain(step)))
  {
    hide LifeInv, D.Inv, WorkersFit, Owners;
    match step
    case Choose(next) => ChooseFits(c, next);
    case Report(w) => ReportFits(c, w);
    case Collect => CollectFits(c);
    case _ => PlainKeepsOwners(c, step);
  }

  lemma ActKeeps(c: Crew, a: Act)
    requires CrewInv(c) && Enabled(c, a)
    ensures CrewInv(Next(c, a))
  {
    hide CrewFits, D.Inv, LifeInv;
    LifeKeeps(c, a);
    DispatcherKeeps(c, a);
    match a
    case Plain(step) => PlainFits(c, step);
    case MarkBegins => MarkBeginsFits(c);
    case MarkSaves => MarkSavesFits(c);
    case MarkEnds(ok) => MarkEndsFits(c, ok);
    case Takes(w, trace, ok) => TakesFits(c, w, trace, ok);
    case OpBegins(w) => OpBeginsFits(c, w);
    case OpSaves(w) => OpSavesFits(c, w);
    case Ends(w) => EndsFits(c, w);
  }

  // ---- runs of the loop ----

  ghost predicate Legal(c: Crew, acts: seq<Act>)
    decreases |acts|
  {
    acts == [] || (Enabled(c, acts[0]) && Legal(Next(c, acts[0]), acts[1..]))
  }

  ghost function Run(c: Crew, acts: seq<Act>): Crew
    requires Legal(c, acts)
    decreases |acts|
  {
    if acts == [] then c else Run(Next(c, acts[0]), acts[1..])
  }

  /** What a run of the loop does to the store. */
  ghost function StoreEvents(c: Crew, acts: seq<Act>): seq<LifeEvent>
    requires Legal(c, acts)
    decreases |acts|
  {
    if acts == [] then [] else
      var e := StoreEvent(c, acts[0]);
      (if e.Some? then [e.value] else []) + StoreEvents(Next(c, acts[0]), acts[1..])
  }

  /** Whatever the dispatcher and its workers do, in any interleaving, their operations on
      the store are in turn; so each task is in at most one of the three sets throughout. */
  lemma {:induction false} LoopIsInTurn(c: Crew, acts: seq<Act>)
    requires CrewInv(c) && Legal(c, acts)
    ensures LifeLegal(c.life, StoreEvents(c, acts)) && Run(c, acts).life == LifeRun(c.life, StoreEvents(c, acts))
    ensures CrewInv(Run(c, acts)) && Exclusive(Run(c, acts).life.sys.file)
    decreases |acts|
  {
    hide CrewInv, Enabled, Next, StoreEvent, LifeEnabled, LifeStep;
    if acts == [] {
      CrewExcludes(c);
    } else {
      var next := Next(c, acts[0]);
      ActKeeps(c, acts[0]);
      LoopIsInTurn(next, acts[1..]);
      var rest := StoreEvents(next, acts[1..]);
      if StoreEvent(c, acts[0]).Some? {
        var e := StoreEvent(c, acts[0]).value;
        StoreEventEnabled(c, acts[0]);
        assert StoreEvents(c, acts) == [e] + rest && ([e] + rest)[1..] == rest;
      } else {
        QuietAct(c, acts[0]);
        assert StoreEvents(c, acts) == rest;
      }
    }
  }

  lemma CrewExcludes(c: Crew)
    requires CrewInv(c)
    ensures Exclusive(c.life.sys.file)
  {
  }

  lemma QuietAct(c: Crew, a: Act)
    requires Enabled(c, a) && StoreEvent(c, a).None?
    ensures Next(c, a).life == c.life
  {
  }

  // ---- runs and crashes ----

  /** One process: recovery, which may not get to its save, and then the loop, up to any point. */
  datatype Session = Session(concurrency: nat, maxTasks: int, stop: bool, recovered: bool, acts: seq<Act>)

  function Started(file: View, p: Session): Crew {
    Crew(D.System(p.maxTasks, D.Top, {}, {}, D.AllFree(p.concurrency), [], 0, p.stop),
         Life(H.System(H.Atomic(H.Recover, file), map[]), true, map[]), Unmarked, map[])
  }

  lemma StartedFits(file: View, p: Session)
    ensures CrewInv(Started(file, p))
  {
    hide CrewFits, D.Inv, H.Atomic;
    D.FreshRun(p.concurrency, p.maxTasks, p.stop);
    RecoveredIsEmpty(file);
    StartedCrewFits(file, p);
  }

  lemma StartedCrewFits(file: View, p: Session)
    ensures CrewFits(Started(file, p))
  {
    hide H.Atomic, ScriptFits, D.OneWorkerEach, D.Bounded;
    D.FreshRun(p.concurrency, p.maxTasks, p.stop);
  }

  /** Recovery takes a life on the file to where the loop starts. */
  lemma RecoveryStartsLoop(file: View, p: Session)
    requires Exclusive(file)
    ensures var events := [Do(H.Begin(0, H.Recover)), Do(H.Commit(0))];
      var l := Life(H.System(file, map[]), false, map[]);
      LifeLegal(l, events) && LifeRun(l, events) == Started(file, p).life
  {
    var l := Life(H.System(file, map[]), false, map[]);
    var e1, e2 := Do(H.Begin(0, H.Recover)), Do(H.Commit(0));
    var m := LifeStep(l, e1);
    var n := LifeStep(m, e2);
    assert [e1, e2][1..] == [e2] && [e2][1..] == [];
    assert LifeRun(n, []) == n && LifeRun(m, [e2]) == n;
    assert n.sys.pending == map[];
  }

  ghost predicate SessionsLegal(file: View, ps: seq<Session>)
    decreases |ps|
  {
    ps == [] ||
    ((ps[0].recovered ==> Legal(Started(file, ps[0]), ps[0].acts)) && SessionsLegal(AfterSession(file, ps[0]), ps[1..]))
  }

  /** The file as a process leaves it, wherever it ends; a recovery that did not save leaves it alone. */
  ghost function AfterSession(file: View, p: Session): View
    requires p.recovered ==> Legal(Started(file, p), p.acts)
  {
    if p.recovered then Run(Started(file, p), p.acts).life.sys.file else file
  }

  ghost function AfterSessions(file: View, ps: seq<Session>): View
    requires SessionsLegal(file, ps)
    decreases |ps|
  {
    if ps == [] then file else AfterSessions(AfterSession(file, ps[0]), ps[1..])
  }

  /** Exclusivity, with nothing assumed of the operations: in every state any number of
      processes can leave behind, each ending anywhere, every task is in at most one of
      the three sets, and recovery gives it the status of that set. */
  lemma {:induction false} SessionsExclusive(file: View, ps: seq<Session>)
    requires Exclusive(file) && SessionsLegal(file, ps)
    ensures var v := AfterSessions(file, ps);
      Exclusive(v) && forall t :: t in Known(v) ==> RecoveredAs(v, t) == Intended(v, t)
    decreases |ps|
  {
    hide Legal, Run, Started;
    if ps == [] {
      forall t | t in Known(file)
        ensures RecoveredAs(file, t) == Intended(file, t)
      {
        ExclusiveRecovery(file, t);
      }
    } else {
      if ps[0].recovered {
        StartedFits(file, ps[0]);
        LoopIsInTurn(Started(file, ps[0]), ps[0].acts);
      }
      SessionsExclusive(AfterSession(file, ps[0]), ps[1..]);
    }
  }
}
