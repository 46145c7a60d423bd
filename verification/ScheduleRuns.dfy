/** Runs of the distributed scheduler (internal/distributed/mastermind_scheduler.go):
    snapshots, diffs, monitor events and passes in any order. */
module ScheduleRuns {
  import opened Contracts
  import opened Ordering
  import opened SchedulerGraphs
  import opened SchedulerPlan
  import opened SchedulePass

  // ---- events with the lock held throughout ----

  datatype Event =
    | SnapshotCame(snaps: seq<Snapshot>)
    | DiffCame(diffs: seq<Diff>)
    | MonitorCame(event: MonitorEvent, ref: string)
    | Pass(executors: seq<Executor>, backpressure: real, qs: Queues, lost: set<Key>)

  ghost predicate PassLegal(s: Sched, backpressure: real, qs: Queues) {
    backpressure > 0.0 && IsQueues(s.graphs, TurnOrder(s.graphs, s.turn), qs)
  }

  ghost predicate Legal(s: Sched, e: Event) {
    match e
    case SnapshotCame(_) => true
    case DiffCame(_) => true
    case MonitorCame(event, ref) => event.task != "" && FoundRef(s.graphs, event, ref)
    case Pass(_, backpressure, qs, _) => PassLegal(s, backpressure, qs)
  }

  function PassPlan(s: Sched, prefix: string, es: seq<Executor>, backpressure: real, qs: Queues): Planned {
    PlanFor(s, prefix, es, Budget(s, es, backpressure), RoundRobin(qs))
  }

  function After(prefix: string, s: Sched, e: Event): Sched {
    match e
    case SnapshotCame(snaps) => AfterSnapshot(s, snaps)
    case DiffCame(diffs) => AfterDiff(s, diffs)
    case MonitorCame(event, ref) => AfterEvent(s, event, ref)
    case Pass(es, backpressure, qs, lost) => AfterPass(s, PassPlan(s, prefix, es, backpressure, qs), lost)
  }

  ghost predicate Run(prefix: string, s: Sched, events: seq<Event>)
    decreases |events|
  {
    events == [] || (Legal(s, events[0]) && Run(prefix, After(prefix, s, events[0]), events[1..]))
  }

  function AfterAll(prefix: string, s: Sched, events: seq<Event>): Sched
    decreases |events|
  {
    if events == [] then s else AfterAll(prefix, After(prefix, s, events[0]), events[1..])
  }

  // ---- what every run keeps ----

  predicate AllLive(graphs: map<string, Nodes>, keys: set<Key>) {
    forall key :: key in keys ==> Live(graphs, key)
  }

  predicate Disjoint(a: set<Key>, b: set<Key>) {
    forall key :: key in a ==> key !in b
  }

  /** Nodes under their own ids, and no task both enqueued and in progress. */
  predicate Apart(s: Sched) {
    Keyed(s.graphs) && Disjoint(s.enqueued, s.inProgress)
  }

  lemma {:induction false} UpsertedOwn(nodes: Nodes, ref: string, ns: seq<Node>)
    requires OwnIds(nodes)
    ensures OwnIds(Upserted(nodes, ref, ns))
    decreases |ns|
  {
    if ns != [] {
      UpsertedOwn(nodes, ref, ns[..|ns| - 1]);
    }
  }

  lemma {:induction false} LoadedKeyed(graphs: map<string, Nodes>, snaps: seq<Snapshot>)
    requires Keyed(graphs)
    ensures Keyed(Loaded(graphs, snaps))
    decreases |snaps|
  {
    hide Upserted;
    if snaps != [] {
      LoadedKeyed(graphs, snaps[..|snaps| - 1]);
      UpsertedOwn(map[], snaps[|snaps| - 1].ref, snaps[|snaps| - 1].nodes);
    }
  }

  lemma {:induction false} PatchedKeyed(graphs: map<string, Nodes>, ds: seq<Diff>)
    requires Keyed(graphs)
    ensures Keyed(PatchAll(graphs, ds))
    decreases |ds|
  {
    hide Upserted;
    if ds != [] {
      var d := ds[|ds| - 1];
      var before := PatchAll(graphs, ds[..|ds| - 1]);
      PatchedKeyed(graphs, ds[..|ds| - 1]);
      UpsertedOwn(NodesAt(before, d.ref), d.ref, d.upserts);
    }
  }

  lemma HappenedKeepsKeyed(s: Sched, happened: Happened, key: Key)
    requires Keyed(s.graphs)
    ensures Keyed(AfterHappened(s, happened, key).graphs)
  {
  }

  lemma StepKeepsKeyed(prefix: string, s: Sched, e: Event)
    requires Keyed(s.graphs)
    ensures Keyed(After(prefix, s, e).graphs)
  {
    hide Keyed, Loaded, PatchAll, PassPlan, AfterHappened;
    match e
    case SnapshotCame(snaps) => LoadedKeyed(s.graphs, snaps);
    case DiffCame(diffs) => PatchedKeyed(s.graphs, diffs);
    case MonitorCame(event, ref) => HappenedKeepsKeyed(s, event.happened, (ref, event.task));
    case Pass(_, _, _, _) =>
  }

  /** Keys that a pass sends are in nobody's hands. */
  lemma SentAreNew(s: Sched, prefix: string, es: seq<Executor>, backpressure: real, qs: Queues)
    requires Keyed(s.graphs) && PassLegal(s, backpressure, qs)
    ensures forall item :: item in PassPlan(s, prefix, es, backpressure, qs).items ==> !InFlight(s, item.key)
  {
    hide Keyed, PlanFor, RoundRobin, IsQueues, TurnOrder, Budget, AnyMatches, InFlight;
    PlanIsSafe(s, prefix, es, backpressure, qs);
    assert forall item :: item in PassPlan(s, prefix, es, backpressure, qs).items ==> GoodItem(s, es, item);
  }

  lemma StepKeepsApart(prefix: string, s: Sched, e: Event)
    requires Apart(s) && Legal(s, e)
    ensures Apart(After(prefix, s, e))
  {
    hide Keyed, Loaded, PatchAll, AllRemovedKeys, PlanFor, RoundRobin, IsQueues, TurnOrder, Budget, FoundRef, Marked;
    StepKeepsKeyed(prefix, s, e);
    if e.Pass? {
      SentAreNew(s, prefix, e.executors, e.backpressure, e.qs);
    }
  }

  /** In every state of every run whose passes are atomic, whatever the graphs hold, no task
      is both enqueued and in progress. */
  lemma {:induction false} RunsKeepApart(prefix: string, s: Sched, events: seq<Event>)
    requires Apart(s) && Run(prefix, s, events)
    ensures Apart(AfterAll(prefix, s, events))
    decreases |events|
  {
    hide Apart, Legal, After;
    if events != [] {
      StepKeepsApart(prefix, s, events[0]);
      RunsKeepApart(prefix, After(prefix, s, events[0]), events[1..]);
    }
  }

  lemma FreshSchedulerFits()
    ensures Inv(Sched(map[], {}, {}, {}, 0))
  {
  }

  // ---- the number in flight ----

  function KeysSent(items: seq<Item>, lost: set<Key>): set<Key> {
    set item | item in items && item.key !in lost :: item.key
  }

  lemma {:induction false} SentAtMost(items: seq<Item>, lost: set<Key>)
    ensures |KeysSent(items, lost)| <= |items|
    decreases |items|
  {
    if items == [] {
      assert KeysSent(items, lost) == {};
    } else {
      var front, last := items[..|items| - 1], items[|items| - 1];
      SentAtMost(front, lost);
      assert items == front + [last];
      assert KeysSent(items, lost) == KeysSent(front, lost) + if last.key in lost then {} else {last.key};
    }
  }

  /** A pass leaves no more in flight than the executors' free slots times the backpressure,
      unless there was more already; then it adds nothing. */
  lemma PassWithinBudget(prefix: string, s: Sched, es: seq<Executor>, backpressure: real, qs: Queues, lost: set<Key>)
    ensures var after := AfterPass(s, PassPlan(s, prefix, es, backpressure, qs), lost);
      var before := |s.enqueued| + |s.inProgress|;
      |after.enqueued| + |after.inProgress| <=
        (if before > MaxInFlight(es, backpressure) then before else MaxInFlight(es, backpressure))
  {
    hide PlanFor, RoundRobin, MaxInFlight, EligibleOf;
    var p := PassPlan(s, prefix, es, backpressure, qs);
    PlanIsEligiblePrefix(s, prefix, es, Budget(s, es, backpressure), RoundRobin(qs));
    SentAtMost(p.items, lost);
    assert AfterPass(s, p, lost).enqueued == s.enqueued + KeysSent(p.items, lost);
    assert s.enqueued + KeysSent(p.items, lost) == s.enqueued + (KeysSent(p.items, lost) - s.enqueued);
  }

  // ---- passes as they are: a plan, then one key after the other ----

  /** What is left of a pass; done: the first of it was published or accepted by the bus and
      is about to be marked, without the lock so far. */
  datatype Rest = Rest(reports: seq<Key>, keys: seq<Key>, done: bool)

  const NO_REST := Rest([], [], false)

  datatype Machine = Machine(s: Sched, rest: Rest)

  datatype Step =
    | Outside(event: Event)
    | MakePlan(executors: seq<Executor>, backpressure: real, qs: Queues)
    | Publish(ok: bool) | MarkBlocked
    | Accept(ok: bool) | MarkEnqueued

  function KeysOf(items: seq<Item>): (keys: seq<Key>)
    ensures |keys| == |items| && forall i :: 0 <= i < |items| ==> keys[i] == items[i].key
  {
    if items == [] then [] else [items[0].key] + KeysOf(items[1..])
  }

  ghost predicate Enabled(m: Machine, step: Step) {
    match step
    case Outside(e) => !e.Pass? && Legal(m.s, e)
    case MakePlan(_, backpressure, qs) => m.rest == NO_REST && PassLegal(m.s, backpressure, qs)
    case Publish(_) => m.rest.reports != [] && !m.rest.done
    case MarkBlocked => m.rest.reports != [] && m.rest.done
    case Accept(_) => m.rest.reports == [] && m.rest.keys != [] && !m.rest.done
    case MarkEnqueued => m.rest.reports == [] && m.rest.keys != [] && m.rest.done
  }

  /** Only what its own code enables is ever done; elsewhere the machine stands still. */
  ghost function Next(prefix: string, m: Machine, step: Step): Machine {
    if !Enabled(m, step) then m else
      match step
      case Outside(e) => m.(s := After(prefix, m.s, e))
      case MakePlan(es, backpressure, qs) =>
        var p := PassPlan(m.s, prefix, es, backpressure, qs);
        Machine(AfterPass(m.s, Planned([], [], p.blocked), {}), Rest(p.reports, KeysOf(p.items), false))
      case Publish(ok) => m.(rest := if ok then m.rest.(done := true) else m.rest.(reports := m.rest.reports[1..]))
      case MarkBlocked =>
        Machine(m.s.(blocked := m.s.blocked + {m.rest.reports[0]}),
                m.rest.(reports := m.rest.reports[1..], done := false))
      case Accept(ok) => m.(rest := if ok then m.rest.(done := true) else m.rest.(keys := m.rest.keys[1..]))
      case MarkEnqueued =>
        Machine(m.s.(enqueued := m.s.enqueued + {m.rest.keys[0]}), m.rest.(keys := m.rest.keys[1..], done := false))
  }

  ghost function StateAt(prefix: string, m: Machine, steps: seq<Step>): Machine
    decreases |steps|
  {
    if steps == [] then m else StateAt(prefix, Next(prefix, m, steps[0]), steps[1..])
  }

  /** Apart, and what is enqueued is a known task that is open or in progress. */
  predicate Inv(s: Sched) {
    Apart(s) && AllLive(s.graphs, s.enqueued)
  }

  lemma HappenedKeeps(s: Sched, happened: Happened, key: Key)
    requires Inv(s)
    ensures Inv(AfterHappened(s, happened, key))
  {
    hide Keyed;
    HappenedKeepsKeyed(s, happened, key);
    assert forall k, status :: k != key && Live(s.graphs, k) ==> Live(Marked(s.graphs, key, status), k);
  }

  lemma OutsideKeeps(prefix: string, s: Sched, e: Event)
    requires Inv(s) && !e.Pass? && Legal(s, e)
    ensures Inv(After(prefix, s, e))
  {
    hide Keyed, Loaded, PatchAll, AllRemovedKeys, FoundRef, AfterHappened;
    match e
    case SnapshotCame(snaps) => LoadedKeyed(s.graphs, snaps);
    case DiffCame(diffs) => PatchedKeyed(s.graphs, diffs);
    case MonitorCame(event, ref) => HappenedKeeps(s, event.happened, (ref, event.task));
  }

  /** A mark comes in time: the key is still that of a task to be done, which nobody has started. */
  predicate InTime(s: Sched, key: Key) {
    Live(s.graphs, key) && key !in s.inProgress
  }

  lemma MarkKeepsIff(s: Sched, key: Key)
    requires Inv(s)
    ensures Inv(s.(enqueued := s.enqueued + {key})) <==> InTime(s, key)
  {
    hide Keyed, Live;
    assert key in s.enqueued + {key};
  }

  predicate IsMark(m: Machine, step: Step) {
    step.MarkEnqueued? && m.rest.reports == [] && m.rest.keys != [] && m.rest.done
  }

  /** Every other step of the pass keeps the invariant, and so does all that comes in between. */
  lemma StepKeepsIff(prefix: string, m: Machine, step: Step)
    requires Inv(m.s)
    ensures Inv(Next(prefix, m, step).s) <==> (IsMark(m, step) ==> InTime(m.s, m.rest.keys[0]))
  {
    hide Keyed, Live, PassPlan, AllLive, Disjoint, InTime, Inv, After, Legal, PassLegal;
    if Enabled(m, step) {
      match step
      case Outside(e) => OutsideKeeps(prefix, m.s, e);
      case MarkEnqueued => MarkKeepsIff(m.s, m.rest.keys[0]);
      case MakePlan(es, backpressure, qs) => NothingSent(m.s, PassPlan(m.s, prefix, es, backpressure, qs).blocked);
      case MarkBlocked => BlockedDoesNotMatter(m.s, m.s.blocked + {m.rest.reports[0]}, m.s.turn);
      case _ =>
    }
  }

  lemma BlockedDoesNotMatter(s: Sched, blocked: set<Key>, turn: nat)
    ensures Inv(s.(blocked := blocked, turn := turn)) <==> Inv(s)
  {
  }

  lemma NothingSent(s: Sched, blocked: set<Key>)
    ensures Inv(AfterPass(s, Planned([], [], blocked), {})) <==> Inv(s)
  {
    assert AfterPass(s, Planned([], [], blocked), {}).enqueued == s.enqueued;
  }

  ghost predicate KeptThroughout(prefix: string, m: Machine, steps: seq<Step>) {
    forall n :: 0 <= n <= |steps| ==> Inv(StateAt(prefix, m, steps[..n]).s)
  }

  /** Every mark of the run comes in time. */
  ghost predicate Timely(prefix: string, m: Machine, steps: seq<Step>)
    decreases |steps|
  {
    steps == [] ||
    ((IsMark(m, steps[0]) ==> InTime(m.s, m.rest.keys[0])) && Timely(prefix, Next(prefix, m, steps[0]), steps[1..]))
  }

  lemma StateAtNext(prefix: string, m: Machine, steps: seq<Step>, n: nat)
    requires 0 < n <= |steps|
    ensures StateAt(prefix, m, steps[..n]) == StateAt(prefix, Next(prefix, m, steps[0]), steps[1..][..n - 1])
  {
    assert steps[..n][1..] == steps[1..][..n - 1];
  }

  lemma KeptNext(prefix: string, m: Machine, steps: seq<Step>)
    requires steps != []
    ensures KeptThroughout(prefix, m, steps) <==>
      Inv(m.s) && KeptThroughout(prefix, Next(prefix, m, steps[0]), steps[1..])
  {
    hide Inv, Next;
    var next, rest := Next(prefix, m, steps[0]), steps[1..];
    assert StateAt(prefix, m, steps[..0]) == m;
    if KeptThroughout(prefix, m, steps) {
      forall n | 0 <= n <= |rest|
        ensures Inv(StateAt(prefix, next, rest[..n]).s)
      {
        StateAtNext(prefix, m, steps, n + 1);
      }
    }
    if Inv(m.s) && KeptThroughout(prefix, next, rest) {
      forall n | 0 <= n <= |steps|
        ensures Inv(StateAt(prefix, m, steps[..n]).s)
      {
        if n > 0 {
          StateAtNext(prefix, m, steps, n);
        }
      }
    }
  }

  /** Exactly when enqueued and in progress stay apart, over all runs, with anything between
      the plan, the bus and the marks: when each key is marked while its task is known,
      open or in progress, and not yet reported started. */
  lemma {:induction false} RunsKeptIff(prefix: string, m: Machine, steps: seq<Step>)
    requires Inv(m.s)
    ensures KeptThroughout(prefix, m, steps) <==> Timely(prefix, m, steps)
    decreases |steps|
  {
    hide Inv, Next, IsMark, InTime;
    if steps == [] {
      assert StateAt(prefix, m, []) == m;
      assert [][..0] == steps[..0];
    } else {
      var next := Next(prefix, m, steps[0]);
      KeptNext(prefix, m, steps);
      StepKeepsIff(prefix, m, steps[0]);
      if Inv(next.s) {
        RunsKeptIff(prefix, next, steps[1..]);
      } else {
        assert StateAt(prefix, next, steps[1..][..0]) == next;
      }
    }
  }

  // ---- passes that nothing interrupts ----

  function PublishAll(keys: seq<Key>, lost: set<Key>): seq<Step> {
    if keys == [] then [] else
      (if keys[0] in lost then [Publish(false)] else [Publish(true), MarkBlocked]) + PublishAll(keys[1..], lost)
  }

  function SendAll(keys: seq<Key>, lost: set<Key>): seq<Step> {
    if keys == [] then [] else
      (if keys[0] in lost then [Accept(false)] else [Accept(true), MarkEnqueued]) + SendAll(keys[1..], lost)
  }

  function NotLost(keys: seq<Key>, lost: set<Key>): set<Key> {
    set key | key in keys && key !in lost
  }

  lemma {:induction false} StateAtBoth(prefix: string, m: Machine, a: seq<Step>, b: seq<Step>)
    ensures StateAt(prefix, m, a + b) == StateAt(prefix, StateAt(prefix, m, a), b)
    decreases |a|
  {
    hide Next;
    if a == [] {
      assert a + b == b;
    } else {
      assert (a + b)[1..] == a[1..] + b;
      StateAtBoth(prefix, Next(prefix, m, a[0]), a[1..], b);
    }
  }

  lemma OneStep(prefix: string, m: Machine, a: Step)
    ensures StateAt(prefix, m, [a]) == Next(prefix, m, a)
  {
    hide Next;
    assert [a][1..] == [];
    assert StateAt(prefix, Next(prefix, m, a), []) == Next(prefix, m, a);
  }

  lemma TwoSteps(prefix: string, m: Machine, a: Step, b: Step)
    ensures StateAt(prefix, m, [a]) == Next(prefix, m, a)
    ensures StateAt(prefix, m, [a, b]) == Next(prefix, Next(prefix, m, a), b)
  {
    hide Next;
    OneStep(prefix, m, a);
    OneStep(prefix, Next(prefix, m, a), b);
    assert [a] + [b] == [a, b];
    StateAtBoth(prefix, m, [a], [b]);
  }

  lemma {:induction false} PublishedAll(prefix: string, s: Sched, reports: seq<Key>, keys: seq<Key>, lost: set<Key>)
    ensures StateAt(prefix, Machine(s, Rest(reports, keys, false)), PublishAll(reports, lost)) ==
      Machine(s.(blocked := s.blocked + NotLost(reports, lost)), Rest([], keys, false))
    decreases |reports|
  {
    var m := Machine(s, Rest(reports, keys, false));
    if reports == [] {
      assert NotLost(reports, lost) == {};
    } else {
      var first := reports[0];
      var steps := if first in lost then [Publish(false)] else [Publish(true), MarkBlocked];
      var now := if first in lost then s else s.(blocked := s.blocked + {first});
      TwoSteps(prefix, m, steps[0], MarkBlocked);
      StateAtBoth(prefix, m, steps, PublishAll(reports[1..], lost));
      PublishedAll(prefix, now, reports[1..], keys, lost);
      assert reports == [first] + reports[1..];
      assert now.blocked + NotLost(reports[1..], lost) == s.blocked + NotLost(reports, lost);
    }
  }

  lemma {:induction false} SentAll(prefix: string, s: Sched, keys: seq<Key>, lost: set<Key>)
    ensures StateAt(prefix, Machine(s, Rest([], keys, false)), SendAll(keys, lost)) ==
      Machine(s.(enqueued := s.enqueued + NotLost(keys, lost)), NO_REST)
    decreases |keys|
  {
    var m := Machine(s, Rest([], keys, false));
    if keys == [] {
      assert NotLost(keys, lost) == {};
    } else {
      var first := keys[0];
      var steps := if first in lost then [Accept(false)] else [Accept(true), MarkEnqueued];
      var now := if first in lost then s else s.(enqueued := s.enqueued + {first});
      TwoSteps(prefix, m, steps[0], MarkEnqueued);
      StateAtBoth(prefix, m, steps, SendAll(keys[1..], lost));
      SentAll(prefix, now, keys[1..], lost);
      assert keys == [first] + keys[1..];
      assert now.enqueued + NotLost(keys[1..], lost) == s.enqueued + NotLost(keys, lost);
    }
  }

  /** The steps of a pass, with nothing in between, do what scheduleOnce does at once. */
  lemma UninterruptedPass(prefix: string, s: Sched, es: seq<Executor>, backpressure: real, qs: Queues, lost: set<Key>)
    requires PassLegal(s, backpressure, qs)
    ensures var p := PassPlan(s, prefix, es, backpressure, qs);
      var steps := [MakePlan(es, backpressure, qs)] + (PublishAll(p.reports, lost) + SendAll(KeysOf(p.items), lost));
      StateAt(prefix, Machine(s, NO_REST), steps) == Machine(AfterPass(s, p, lost), NO_REST)
  {
    hide PassPlan, PassLegal;
    var p := PassPlan(s, prefix, es, backpressure, qs);
    var plan := MakePlan(es, backpressure, qs);
    var planned := AfterPass(s, Planned([], [], p.blocked), {});
    var keys := KeysOf(p.items);
    OneStep(prefix, Machine(s, NO_REST), plan);
    StateAtBoth(prefix, Machine(s, NO_REST), [plan], PublishAll(p.reports, lost) + SendAll(keys, lost));
    StateAtBoth(prefix, Machine(planned, Rest(p.reports, keys, false)), PublishAll(p.reports, lost),
                SendAll(keys, lost));
    PublishedAll(prefix, planned, p.reports, keys, lost);
    var published := planned.(blocked := planned.blocked + NotLost(p.reports, lost));
    SentAll(prefix, published, keys, lost);
    KeysOfSent(p.items, lost);
    AfterPassIs(s, p, lost);
    AfterPassIs(s, Planned([], [], p.blocked), {});
  }

  lemma KeysOfSent(items: seq<Item>, lost: set<Key>)
    ensures NotLost(KeysOf(items), lost) == set item | item in items && item.key !in lost :: item.key
  {
    forall key
      ensures key in NotLost(KeysOf(items), lost) <==>
        exists item :: item in items && item.key !in lost && item.key == key
    {
      if key in KeysOf(items) {
        var i :| 0 <= i < |items| && KeysOf(items)[i] == key;
        assert items[i] in items;
      }
      if item :| item in items && item.key == key {
        var i :| 0 <= i < |items| && items[i] == item;
        assert KeysOf(items)[i] == key;
      }
    }
  }

  /** When nodes go by the name of the graph they lie in, what is planned is in time: only
      something in between can make a mark late. */
  lemma PlannedInTime(s: Sched, prefix: string, es: seq<Executor>, backpressure: real, qs: Queues)
    requires Keyed(s.graphs) && PassLegal(s, backpressure, qs)
    requires forall ref, n :: RunnableIn(s.graphs, ref, n) ==> n.graph == ref
    ensures forall item :: item in PassPlan(s, prefix, es, backpressure, qs).items ==> InTime(s, item.key)
  {
    hide Keyed, PlanFor, RoundRobin, IsQueues, TurnOrder, Budget, AnyMatches;
    PlanIsSafe(s, prefix, es, backpressure, qs);
    forall item | item in PassPlan(s, prefix, es, backpressure, qs).items
      ensures InTime(s, item.key)
    {
      assert GoodItem(s, es, item);
      var ref :| RunnableIn(s.graphs, ref, item.node);
    }
  }

  // ---- late marks, step by step ----

  /** An open task without dependencies that asks for the implement capability. */
  function PlainNode(id: string, graph: string): Node {
    Node(id, "", Open, graph, [], 0, Requirements(["implement"], [], map[]), "")
  }

  function Implementer(slots: int): Executor {
    Executor(slots, {"implement"}, {}, false, false, false)
  }

  function OneTask(): Sched {
    Sched(map["g" := map["t" := PlainNode("t", "g")]], {}, {}, {}, 0)
  }

  lemma OneInOrder(graphs: map<string, Nodes>, ref: string)
    requires graphs.Keys == {ref}
    ensures TurnOrder(graphs, 0) == [ref]
  {
    assert Ascending([ref]) && Elements([ref]) == {ref};
    AscendingUnique(SortedKeys(graphs.Keys), [ref]);
  }

  lemma OneRunnable(ref: string, id: string, graph: string)
    requires id != "" && id != ref
    ensures Runnable(ref, map[id := PlainNode(id, graph)], id)
    ensures Candidates(ref, map[id := PlainNode(id, graph)], [PlainNode(id, graph)])
  {
    var nodes := map[id := PlainNode(id, graph)];
    assert Runnable(ref, nodes, id);
  }

  lemma OneTaskPlanned(prefix: string)
    ensures PassLegal(OneTask(), 1.0, [[PlainNode("t", "g")]])
    ensures var p := PassPlan(OneTask(), prefix, [Implementer(1)], 1.0, [[PlainNode("t", "g")]]);
      p.reports == [] && KeysOf(p.items) == [("g", "t")] && p.blocked == {}
  {
    hide RoundRobin, AnyMatches, Budget, PlanFor, TurnOrder, Candidates;
    var s, n := OneTask(), PlainNode("t", "g");
    OneInOrder(s.graphs, "g");
    OneRunnable("g", "t", "g");
    OneTurn(n);
    AbleImplementer(n, 1);
    WholeBudget(s, 1);
    OnePlanned(prefix, s, n);
  }

  lemma WholeBudget(s: Sched, slots: nat)
    requires s.enqueued == {} && s.inProgress == {}
    ensures Budget(s, [Implementer(slots)], 1.0) == slots
  {
    assert FreeSlots([Implementer(slots)]) == slots;
  }

  lemma OnePlanned(prefix: string, s: Sched, n: Node)
    requires !InFlight(s, KeyOf(n)) && AnyMatches(n.needs, [Implementer(1)])
    ensures PlanFor(s, prefix, [Implementer(1)], 1, [n]) ==
      Planned([Item(KeyOf(n), Route(prefix, n.needs), n)], [], s.blocked - {KeyOf(n)})
  {
    hide AnyMatches, InFlight;
    assert [n][..0] == [];
  }

  lemma OneTurn(n: Node)
    ensures RoundRobin([[n]]) == [n]
  {
    assert [[n]][..0] == [] && Heads([[n]]) == [n];
    assert Tails([[n]]) == [[]];
    var none: Queues := [[]];
    assert none[..0] == [] && Heads(none) == [];
  }

  lemma AbleImplementer(n: Node, slots: int)
    requires n.needs == Requirements(["implement"], [], map[])
    ensures AnyMatches(n.needs, [Implementer(slots)])
  {
    assert Matches(n.needs, [Implementer(slots)][0]);
  }

  function PlanOneTask(): Step {
    MakePlan([Implementer(1)], 1.0, [[PlainNode("t", "g")]])
  }

  function Reported(happened: Happened): Step {
    Outside(MonitorCame(MonitorEvent(happened, "t", "g"), "g"))
  }

  lemma AcceptedOneTask(prefix: string)
    ensures StateAt(prefix, Machine(OneTask(), NO_REST), [PlanOneTask(), Accept(true)]) ==
      Machine(OneTask().(turn := 1), Rest([], [("g", "t")], true))
  {
    hide PassPlan, PassLegal;
    OneTaskPlanned(prefix);
    var m := Machine(OneTask(), NO_REST);
    assert "g" in OneTask().graphs;
    var planned := Next(prefix, m, PlanOneTask());
    assert planned == Machine(OneTask().(turn := 1), Rest([], [("g", "t")], false));
    TwoSteps(prefix, m, PlanOneTask(), Accept(true));
  }

  lemma AfterReport(prefix: string, m: Machine, happened: Happened)
    ensures Next(prefix, m, Reported(happened)) == m.(s := AfterHappened(m.s, happened, ("g", "t")))
  {
  }

  lemma AfterMark(prefix: string, m: Machine, key: Key)
    requires m.rest == Rest([], [key], true)
    ensures Next(prefix, m, MarkEnqueued).s == m.s.(enqueued := m.s.enqueued + {key})
  {
  }

  lemma OneTaskIsFine()
    ensures Inv(OneTask())
  {
  }

  /** The bus accepts the task, its worker reports the start, and only then is it marked:
      one task is enqueued and in progress at once. */
  lemma LateMarkOverlaps(prefix: string)
    ensures var steps := [PlanOneTask(), Accept(true)] + [Reported(Started), MarkEnqueued];
      var s := StateAt(prefix, Machine(OneTask(), NO_REST), steps).s;
      Inv(OneTask()) && ("g", "t") in s.enqueued && ("g", "t") in s.inProgress
  {
    hide AfterHappened, Next, StateAt, OneTask, PlanOneTask, Reported;
    var m := Machine(OneTask(), NO_REST);
    OneTaskIsFine();
    AcceptedOneTask(prefix);
    var accepted := StateAt(prefix, m, [PlanOneTask(), Accept(true)]);
    AfterReport(prefix, accepted, Started);
    StartedIs(accepted.s);
    var started := Next(prefix, accepted, Reported(Started));
    AfterMark(prefix, started, ("g", "t"));
    TwoSteps(prefix, accepted, Reported(Started), MarkEnqueued);
    StateAtBoth(prefix, m, [PlanOneTask(), Accept(true)], [Reported(Started), MarkEnqueued]);
  }

  lemma StartedIs(s: Sched)
    ensures ("g", "t") in AfterHappened(s, Started, ("g", "t")).inProgress
  {
  }

  /** If its end is reported first as well, a finished task stays enqueued, against the
      budget, until the next snapshot or diff prunes it. */
  lemma LateMarkLeaks(prefix: string)
    ensures var steps := [PlanOneTask(), Accept(true)] + ([Reported(Started), Reported(Completed)] + [MarkEnqueued]);
      var s := StateAt(prefix, Machine(OneTask(), NO_REST), steps).s;
      ("g", "t") in s.enqueued && ("g", "t") !in s.inProgress && !Live(s.graphs, ("g", "t")) &&
      ("g", "t") !in Pruned(s).enqueued
  {
    hide AfterHappened, Next, StateAt, OneTask, PlanOneTask, Reported;
    var key, m := ("g", "t"), Machine(OneTask(), NO_REST);
    AcceptedOneTask(prefix);
    var accepted := StateAt(prefix, m, [PlanOneTask(), Accept(true)]);
    AfterReport(prefix, accepted, Started);
    var started := Next(prefix, accepted, Reported(Started));
    AfterReport(prefix, started, Completed);
    CompletedIs(started.s);
    TwoSteps(prefix, accepted, Reported(Started), Reported(Completed));
    var done := StateAt(prefix, accepted, [Reported(Started), Reported(Completed)]);
    AfterMark(prefix, done, key);
    OneStep(prefix, done, MarkEnqueued);
    StateAtBoth(prefix, accepted, [Reported(Started), Reported(Completed)], [MarkEnqueued]);
    StateAtBoth(prefix, m, [PlanOneTask(), Accept(true)], [Reported(Started), Reported(Completed)] + [MarkEnqueued]);
  }

  lemma CompletedIs(s: Sched)
    ensures var after := AfterHappened(s, Completed, ("g", "t"));
      ("g", "t") !in after.inProgress && !Live(after.graphs, ("g", "t"))
  {
  }

  // ---- two graphs, one name ----

  /** A node of graph b that names graph a. */
  function TwoGraphs(): Sched {
    Sched(map["a" := map["t" := PlainNode("t", "a")], "b" := map["t" := PlainNode("t", "a")]], {}, {}, {}, 0)
  }

  /** One plan with the same key twice: the condition of RunnableOrderDistinctIff fails. */
  lemma OneNameTwice(prefix: string)
    ensures var n := PlainNode("t", "a");
      Inv(TwoGraphs()) && !NamedApart(TwoGraphs().graphs) && PassLegal(TwoGraphs(), 1.0, [[n], [n]]) &&
      KeysOf(PassPlan(TwoGraphs(), prefix, [Implementer(2)], 1.0, [[n], [n]]).items) == [("a", "t"), ("a", "t")]
  {
    hide RoundRobin, AnyMatches, Budget, PlanFor, TurnOrder, Candidates, Runnable;
    var s, n := TwoGraphs(), PlainNode("t", "a");
    TwoInOrder(s.graphs);
    OneRunnable("a", "t", "a");
    OneRunnable("b", "t", "a");
    assert RunnableIn(s.graphs, "a", n) && RunnableIn(s.graphs, "b", n);
    TwoTurns(n);
    AbleImplementer(n, 2);
    WholeBudget(s, 2);
    TwoPlanned(prefix, s, n);
  }

  lemma TwoInOrder(graphs: map<string, Nodes>)
    requires graphs.Keys == {"a", "b"}
    ensures TurnOrder(graphs, 0) == ["a", "b"]
  {
    assert Ascending(["a", "b"]) && Elements(["a", "b"]) == {"a", "b"};
    AscendingUnique(SortedKeys(graphs.Keys), ["a", "b"]);
  }

  lemma TwoTurns(n: Node)
    ensures RoundRobin([[n], [n]]) == [n, n]
  {
    assert [[n], [n]][..1] == [[n]] && [[n]][..0] == [] && Heads([[n]]) == [n] && Heads([[n], [n]]) == [n, n];
    assert Tails([[n], [n]]) == [[], []];
    var none: Queues, nothing: Queues := [[]], [[], []];
    assert none[..0] == [] && nothing[..1] == none && Heads(none) == [] && Heads(nothing) == [];
  }

  lemma TwoPlanned(prefix: string, s: Sched, n: Node)
    requires !InFlight(s, KeyOf(n)) && AnyMatches(n.needs, [Implementer(2)])
    ensures KeysOf(PlanFor(s, prefix, [Implementer(2)], 2, [n, n]).items) == [KeyOf(n), KeyOf(n)]
  {
    hide AnyMatches, InFlight;
    assert [n, n][..1] == [n] && [n][..0] == [];
    var item := Item(KeyOf(n), Route(prefix, n.needs), n);
    assert PlanFor(s, prefix, [Implementer(2)], 2, [n]).items == [item];
    assert PlanFor(s, prefix, [Implementer(2)], 2, [n, n]).items == [item, item];
  }
}
