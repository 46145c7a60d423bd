/** What the distributed scheduler knows (internal/distributed/mastermind_scheduler.go):
    the nodes of each task graph, and which tasks are enqueued, in progress or reported
    blocked.  Snapshots and diffs bring the nodes, monitor events move the tasks. */
module SchedulerGraphs {
  import opened Contracts
  import opened Ordering

  datatype Requirements = Requirements(capabilities: seq<string>, credentials: seq<string>,
                                       environment: map<string, bool>)

  /** dependencies and priority are read from the node's metadata. */
  datatype Node = Node(
    id: string, parent: string, status: TaskStatus, graph: string,
    dependencies: seq<string>, priority: int, needs: Requirements, rest: string)

  type Key = (string, string)
  type Nodes = map<string, Node>

  datatype Snapshot = Snapshot(ref: string, nodes: seq<Node>)
  datatype Diff = Diff(ref: string, upserts: seq<Node>, deletes: seq<string>)

  datatype Sched = Sched(graphs: map<string, Nodes>, enqueued: set<Key>, inProgress: set<Key>, blocked: set<Key>,
                         turn: nat)

  function NodesAt(graphs: map<string, Nodes>, ref: string): Nodes {
    if ref in graphs then graphs[ref] else map[]
  }

  // ---- nodes of one graph ----

  function Filled(ref: string, n: Node): Node {
    if n.graph == "" then n.(graph := ref) else n
  }

  /** Nodes without an id are skipped; of several with the same id the last counts. */
  function Upserted(nodes: Nodes, ref: string, ns: seq<Node>): Nodes
    decreases |ns|
  {
    if ns == [] then nodes else
      var n := ns[|ns| - 1];
      var front := Upserted(nodes, ref, ns[..|ns| - 1]);
      if n.id == "" then front else front[n.id := Filled(ref, n)]
  }

  function Removed(ids: seq<string>): set<string> {
    set id | id in ids && id != ""
  }

  // ---- pruning ----

  /** A key that may stay in the scheduler's sets: a known task that is open or in progress. */
  predicate Live(graphs: map<string, Nodes>, key: Key) {
    key.0 in graphs && key.1 in graphs[key.0] &&
    (graphs[key.0][key.1].status == Open || graphs[key.0][key.1].status == InProgress)
  }

  function LiveOnly(graphs: map<string, Nodes>, keys: set<Key>): set<Key> {
    set key | key in keys && Live(graphs, key)
  }

  function Pruned(s: Sched): Sched {
    s.(enqueued := LiveOnly(s.graphs, s.enqueued), inProgress := LiveOnly(s.graphs, s.inProgress),
       blocked := LiveOnly(s.graphs, s.blocked))
  }

  // ---- snapshots and diffs ----

  function Loaded(graphs: map<string, Nodes>, snaps: seq<Snapshot>): map<string, Nodes> {
    if snaps == [] then graphs else
      var last := snaps[|snaps| - 1];
      Loaded(graphs, snaps[..|snaps| - 1])[last.ref := Upserted(map[], last.ref, last.nodes)]
  }

  predicate Readable(snaps: seq<Snapshot>) {
    forall s :: s in snaps ==> s.ref != ""
  }

  function AfterSnapshot(s: Sched, snaps: seq<Snapshot>): Sched {
    if Readable(snaps) then Pruned(s.(graphs := Loaded(s.graphs, snaps))) else s
  }

  function Patch(graphs: map<string, Nodes>, d: Diff): map<string, Nodes> {
    if d.ref == "" then graphs else
      graphs[d.ref := Upserted(NodesAt(graphs, d.ref), d.ref, d.upserts) - Removed(d.deletes)]
  }

  function PatchAll(graphs: map<string, Nodes>, ds: seq<Diff>): map<string, Nodes> {
    if ds == [] then graphs else Patch(PatchAll(graphs, ds[..|ds| - 1]), ds[|ds| - 1])
  }

  function RemovedKeys(d: Diff): set<Key> {
    if d.ref == "" then {} else set id | id in Removed(d.deletes) :: (d.ref, id)
  }

  function AllRemovedKeys(ds: seq<Diff>): set<Key> {
    if ds == [] then {} else AllRemovedKeys(ds[..|ds| - 1]) + RemovedKeys(ds[|ds| - 1])
  }

  function AfterDiff(s: Sched, ds: seq<Diff>): Sched {
    var gone := AllRemovedKeys(ds);
    Pruned(s.(graphs := PatchAll(s.graphs, ds), enqueued := s.enqueued - gone, inProgress := s.inProgress - gone,
              blocked := s.blocked - gone))
  }

  // ---- monitor events ----

  datatype Happened = Started | Completed | Failed | Other
  datatype MonitorEvent = MonitorEvent(happened: Happened, task: string, graph: string)

  function Marked(graphs: map<string, Nodes>, key: Key, status: TaskStatus): map<string, Nodes> {
    if key.0 in graphs && key.1 in graphs[key.0] then
      graphs[key.0 := graphs[key.0][key.1 := graphs[key.0][key.1].(status := status)]]
    else
      graphs
  }

  function AfterHappened(s: Sched, happened: Happened, key: Key): Sched {
    match happened
    case Started =>
      s.(graphs := Marked(s.graphs, key, InProgress), enqueued := s.enqueued - {key},
         inProgress := s.inProgress + {key})
    case Completed =>
      s.(graphs := Marked(s.graphs, key, Closed), enqueued := s.enqueued - {key}, inProgress := s.inProgress - {key},
         blocked := s.blocked - {key})
    case Failed =>
      s.(graphs := Marked(s.graphs, key, Blocked), enqueued := s.enqueued - {key}, inProgress := s.inProgress - {key})
    case Other => s
  }

  function AfterEvent(s: Sched, e: MonitorEvent, ref: string): Sched {
    if ref == "" then s else AfterHappened(s, e.happened, (ref, e.task))
  }

  predicate IsNews(s: Sched, e: MonitorEvent, ref: string) {
    ref != "" &&
    (e.happened.Completed? || e.happened.Failed? || (e.happened.Started? && (ref, e.task) !in s.inProgress))
  }

  /** The graph an event names, or else the first one, in order, that has the task. */
  ghost predicate FoundRef(graphs: map<string, Nodes>, e: MonitorEvent, ref: string) {
    if e.graph != "" then ref == e.graph
    else if ref == "" then ("" in graphs && e.task in graphs[""]) || forall r :: r in graphs ==> e.task !in graphs[r]
    else ref in graphs && e.task in graphs[ref] && forall r :: r in graphs && Less(r, ref) ==> e.task !in graphs[r]
  }

  // ---- the loops over nodes ----

  method UpsertNodes(nodes0: Nodes, ref: string, ns: seq<Node>) returns (nodes: Nodes)
    ensures nodes == Upserted(nodes0, ref, ns)
  {
    nodes := nodes0;
    var i := 0;
    while i < |ns|
      invariant 0 <= i <= |ns|
      invariant nodes == Upserted(nodes0, ref, ns[..i])
    {
      var node := ns[i];
      assert ns[..i + 1][..i] == ns[..i];
      i := i + 1;
      if node.id == "" {
        continue;
      }
      if node.graph == "" {
        node := node.(graph := ref);
      }
      nodes := nodes[node.id := node];
    }
    assert ns[..|ns|] == ns;
  }

  method DeleteNodes(nodes0: Nodes, d: Diff) returns (nodes: Nodes, gone: set<Key>)
    requires d.ref != ""
    ensures nodes == nodes0 - Removed(d.deletes) && gone == RemovedKeys(d)
  {
    nodes, gone := nodes0, {};
    var i := 0;
    while i < |d.deletes|
      invariant 0 <= i <= |d.deletes|
      invariant nodes == nodes0 - Removed(d.deletes[..i])
      invariant gone == RemovedKeys(Diff(d.ref, [], d.deletes[..i]))
    {
      var id := d.deletes[i];
      assert d.deletes[..i + 1] == d.deletes[..i] + [id];
      i := i + 1;
      if id == "" {
        continue;
      }
      nodes, gone := nodes - {id}, gone + {(d.ref, id)};
    }
    assert d.deletes[..|d.deletes|] == d.deletes;
  }

  lemma RefInOrder(graphs: map<string, Nodes>, refs: seq<string>, i: nat)
    requires Ascending(refs) && Elements(refs) == graphs.Keys && i < |refs|
    ensures refs[i] in graphs
    ensures forall r :: r in graphs && Less(r, refs[i]) ==> exists j :: 0 <= j < i && refs[j] == r
  {
    assert refs[i] in Elements(refs);
    forall r | r in graphs && Less(r, refs[i])
      ensures exists j :: 0 <= j < i && refs[j] == r
    {
      assert r in Elements(refs);
      var j :| 0 <= j < |refs| && refs[j] == r;
      if j > i {
        LessTransitive(r, refs[i], r);
      }
      LessIrreflexive(r);
    }
  }

  lemma AllRefsSeen(graphs: map<string, Nodes>, refs: seq<string>)
    requires Elements(refs) == graphs.Keys
    ensures forall r :: r in graphs ==> exists j :: 0 <= j < |refs| && refs[j] == r
  {
    forall r | r in graphs
      ensures exists j :: 0 <= j < |refs| && refs[j] == r
    {
      assert r in Elements(refs);
    }
  }

  // ---- the scheduler's fields ----

  class Scheduler {
    var graphs: map<string, Nodes>
    var enqueued: set<Key>
    var inProgress: set<Key>
    var blocked: set<Key>
    var turn: nat

    constructor ()
      ensures Current() == Sched(map[], {}, {}, {}, 0)
    {
      graphs, enqueued, inProgress, blocked, turn := map[], {}, {}, {}, 0;
    }

    function Current(): Sched
      reads this
    {
      Sched(graphs, enqueued, inProgress, blocked, turn)
    }

    method PruneState()
      modifies this
      ensures Current() == Pruned(old(Current()))
    {
      hide LiveOnly, Live, Dropped, KnownKeys, FinishedKeys;
      var valid: set<Key> := {};
      var refs := graphs.Keys;
      ghost var seen: set<string> := {};
      NothingDropped(graphs, enqueued, inProgress, blocked);
      while refs != {}
        invariant Partly(graphs, refs, seen)
        invariant graphs == old(graphs) && turn == old(turn)
        invariant valid == KnownKeys(graphs, seen)
        invariant enqueued == Dropped(graphs, seen, old(enqueued))
        invariant inProgress == Dropped(graphs, seen, old(inProgress))
        invariant blocked == Dropped(graphs, seen, old(blocked))
        decreases |refs|
      {
        var ref :| ref in refs;
        NextRef(graphs, refs, seen, ref);
        NextDropped(graphs, seen, ref, old(enqueued));
        NextDropped(graphs, seen, ref, old(inProgress));
        NextDropped(graphs, seen, ref, old(blocked));
        var finished := FinishedKeys(ref, graphs[ref]);
        valid := valid + TaskKeys(ref, graphs[ref]);
        enqueued, inProgress, blocked := enqueued - finished, inProgress - finished, blocked - finished;
        refs, seen := refs - {ref}, seen + {ref};
      }
      DroppedIsLive(graphs, seen, old(enqueued));
      DroppedIsLive(graphs, seen, old(inProgress));
      DroppedIsLive(graphs, seen, old(blocked));
      enqueued, inProgress, blocked := enqueued * valid, inProgress * valid, blocked * valid;
    }

    method ApplySnapshot(snaps: seq<Snapshot>)
      modifies this
      ensures Current() == AfterSnapshot(old(Current()), snaps)
    {
      var k := 0;
      while k < |snaps|
        invariant 0 <= k <= |snaps|
        invariant Readable(snaps[..k])
      {
        if snaps[k].ref == "" {
          return;
        }
        assert snaps[..k + 1] == snaps[..k] + [snaps[k]];
        k := k + 1;
      }
      assert snaps[..|snaps|] == snaps;
      var i := 0;
      while i < |snaps|
        invariant 0 <= i <= |snaps|
        invariant graphs == Loaded(old(graphs), snaps[..i])
        invariant enqueued == old(enqueued) && inProgress == old(inProgress) && blocked == old(blocked) &&
          turn == old(turn)
      {
        var graph := snaps[i];
        assert snaps[..i + 1][..i] == snaps[..i];
        var nodes := UpsertNodes(map[], graph.ref, graph.nodes);
        graphs := graphs[graph.ref := nodes];
        i := i + 1;
      }
      PruneState();
    }

    method ApplyDiff(ds: seq<Diff>)
      modifies this
      ensures Current() == AfterDiff(old(Current()), ds)
    {
      var i := 0;
      while i < |ds|
        invariant 0 <= i <= |ds|
        invariant graphs == PatchAll(old(graphs), ds[..i]) && turn == old(turn)
        invariant enqueued == old(enqueued) - AllRemovedKeys(ds[..i])
        invariant inProgress == old(inProgress) - AllRemovedKeys(ds[..i])
        invariant blocked == old(blocked) - AllRemovedKeys(ds[..i])
      {
        var d := ds[i];
        assert ds[..i + 1][..i] == ds[..i];
        i := i + 1;
        if d.ref == "" {
          continue;
        }
        var nodes := UpsertNodes(NodesAt(graphs, d.ref), d.ref, d.upserts);
        var gone;
        nodes, gone := DeleteNodes(nodes, d);
        graphs := graphs[d.ref := nodes];
        enqueued, inProgress, blocked := enqueued - gone, inProgress - gone, blocked - gone;
      }
      assert ds[..|ds|] == ds;
      PruneState();
    }

    method FindGraphRef(task: string) returns (ref: string)
      ensures FoundRef(graphs, MonitorEvent(Other, task, ""), ref)
    {
      var refs := SortedKeys(graphs.Keys);
      var i := 0;
      while i < |refs|
        invariant 0 <= i <= |refs|
        invariant forall j :: 0 <= j < i ==> refs[j] in graphs && task !in graphs[refs[j]]
      {
        RefInOrder(graphs, refs, i);
        if task in graphs[refs[i]] {
          return refs[i];
        }
        i := i + 1;
      }
      AllRefsSeen(graphs, refs);
      ref := "";
    }

    /** True when the status is to be published. */
    method ApplyMonitorEvent(e: MonitorEvent) returns (changed: bool)
      modifies this
      ensures e.task == "" ==> !changed && Current() == old(Current())
      ensures e.task != "" ==> exists ref ::
        FoundRef(old(graphs), e, ref) && Current() == AfterEvent(old(Current()), e, ref) &&
        changed == IsNews(old(Current()), e, ref)
    {
      if e.task == "" {
        return false;
      }
      var ref := e.graph;
      if ref == "" {
        ref := FindGraphRef(e.task);
      }
      assert FoundRef(graphs, e, ref);
      if ref == "" {
        return false;
      }
      var key := (ref, e.task);
      changed := false;
      match e.happened
      case Started =>
        enqueued := enqueued - {key};
        if key !in inProgress {
          inProgress := inProgress + {key};
          changed := true;
        }
        SetStatus(key, InProgress);
      case Completed =>
        enqueued, inProgress, blocked := enqueued - {key}, inProgress - {key}, blocked - {key};
        changed := true;
        SetStatus(key, Closed);
      case Failed =>
        enqueued, inProgress := enqueued - {key}, inProgress - {key};
        changed := true;
        SetStatus(key, Blocked);
      case Other =>
    }

    method SetStatus(key: Key, status: TaskStatus)
      modifies this`graphs
      ensures graphs == Marked(old(graphs), key, status)
    {
      if key.0 in graphs && key.1 in graphs[key.0] {
        var nodes := graphs[key.0];
        graphs := graphs[key.0 := nodes[key.1 := nodes[key.1].(status := status)]];
      }
    }
  }

  ghost predicate Partly(graphs: map<string, Nodes>, refs: set<string>, seen: set<string>) {
    forall r :: (r in graphs <==> r in refs || r in seen) && !(r in refs && r in seen)
  }

  lemma NextRef(graphs: map<string, Nodes>, refs: set<string>, seen: set<string>, ref: string)
    requires Partly(graphs, refs, seen) && ref in refs
    ensures ref in graphs && ref !in seen && Partly(graphs, refs - {ref}, seen + {ref})
  {
  }

  function TaskKeys(ref: string, nodes: Nodes): set<Key> {
    set id | id in nodes :: (ref, id)
  }

  function KnownKeys(graphs: map<string, Nodes>, refs: set<string>): set<Key> {
    set ref, id | ref in refs && ref in graphs && id in graphs[ref] :: (ref, id)
  }

  function FinishedKeys(ref: string, nodes: Nodes): set<Key> {
    set id | id in nodes && nodes[id].status != Open && nodes[id].status != InProgress :: (ref, id)
  }

  function Dropped(graphs: map<string, Nodes>, refs: set<string>, keys: set<Key>): set<Key> {
    set key | key in keys && (key.0 in refs && key.0 in graphs && key.1 in graphs[key.0] ==> Live(graphs, key))
  }

  lemma NextDropped(graphs: map<string, Nodes>, refs: set<string>, ref: string, keys: set<Key>)
    requires ref in graphs && ref !in refs
    ensures Dropped(graphs, refs + {ref}, keys) == Dropped(graphs, refs, keys) - FinishedKeys(ref, graphs[ref])
    ensures KnownKeys(graphs, refs + {ref}) == KnownKeys(graphs, refs) + TaskKeys(ref, graphs[ref])
  {
  }

  lemma NothingDropped(graphs: map<string, Nodes>, a: set<Key>, b: set<Key>, c: set<Key>)
    ensures Dropped(graphs, {}, a) == a && Dropped(graphs, {}, b) == b && Dropped(graphs, {}, c) == c
    ensures KnownKeys(graphs, {}) == {} && Partly(graphs, graphs.Keys, {})
  {
  }

  lemma DroppedIsLive(graphs: map<string, Nodes>, seen: set<string>, keys: set<Key>)
    requires Partly(graphs, {}, seen)
    ensures Dropped(graphs, seen, keys) * KnownKeys(graphs, seen) == LiveOnly(graphs, keys)
  {
  }
}
