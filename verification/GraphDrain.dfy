/** Working a task graph off (internal/engine/engine.go): which tasks are available,
    closing them, and completion. */
module GraphDrain {
  import opened Contracts
  import opened Ordering
  import opened CycleSearch
  import opened TaskGraph

  predicate IsContainer(n: Node) {
    n.children != []
  }

  predicate MissesNone(g: Graph, k: string) {
    k in g.missing ==> g.missing[k] == []
  }

  predicate IsClosed(g: Graph, d: string) {
    d in g.nodes && g.nodes[d].status == Closed
  }

  predicate DependenciesSatisfied(g: Graph, k: string) {
    k in g.nodes && MissesNone(g, k) && forall d :: d in g.nodes[k].dependencies ==> IsClosed(g, d)
  }

  predicate IsAvailable(g: Graph, k: string) {
    k in g.nodes && g.nodes[k].status == Open && !IsContainer(g.nodes[k]) && DependenciesSatisfied(g, k)
  }

  predicate IsFinished(status: TaskStatus) {
    status == Closed || status == Failed || status == Blocked
  }

  predicate Complete(g: Graph) {
    forall k :: k in g.nodes ==> IsFinished(g.nodes[k].status) || IsContainer(g.nodes[k])
  }

  function WithStatus(g: Graph, k: string, status: TaskStatus): Graph
    requires k in g.nodes
  {
    g.(nodes := g.nodes[k := g.nodes[k].(status := status)])
  }

  datatype UpdateResult = Updated | NothingToUpdate | TaskNotFound | DependenciesOpen

  /** The graph the engine works on; nodes change in place. */
  class TaskEngine {
    var g: Graph

    constructor (g: Graph)
      ensures this.g == g
    {
      this.g := g;
    }

    /** Every available task, once, in id order. */
    method GetNextAvailable() returns (available: seq<string>)
      ensures Ascending(available)
      ensures forall k :: k in available <==> IsAvailable(g, k)
    {
      available := [];
      var ids := SortedKeys(g.nodes.Keys);
      var i := 0;
      while i < |ids|
        invariant 0 <= i <= |ids|
        invariant Picked(g, ids, i, available)
      {
        var id := ids[i];
        PickNext(g, ids, i, available);
        var node := g.nodes[id];
        if node.status == Open {
          if !IsContainer(node) {
            if DependenciesSatisfied(g, id) {
              available := available + [id];
            }
          }
        }
        i := i + 1;
      }
      PickedAll(g, ids, available);
    }

    method UpdateTaskStatus(id: string, status: TaskStatus) returns (r: UpdateResult)
      modifies this
      ensures r == NothingToUpdate <==> old(g).nodes == map[]
      ensures r == TaskNotFound <==> id !in old(g).nodes && old(g).nodes != map[]
      ensures r == DependenciesOpen <==> id in old(g).nodes && status == Closed && !DependenciesSatisfied(old(g), id)
      ensures g == if r == Updated then WithStatus(old(g), id, status) else old(g)
    {
      if g.nodes == map[] {
        return NothingToUpdate;
      }
      if id !in g.nodes {
        return TaskNotFound;
      }
      if status == Closed && !DependenciesSatisfied(g, id) {
        return DependenciesOpen;
      }
      g := WithStatus(g, id, status);
      r := Updated;
    }

    method IsComplete() returns (complete: bool)
      ensures complete <==> Complete(g)
    {
      var left := g.nodes.Keys;
      while left != {}
        invariant left <= g.nodes.Keys
        invariant forall k :: k in g.nodes && k !in left ==> IsFinished(g.nodes[k].status) || IsContainer(g.nodes[k])
        decreases left
      {
        var id :| id in left;
        left := left - {id};
        if IsFinished(g.nodes[id].status) {
          continue;
        }
        if IsContainer(g.nodes[id]) {
          continue;
        }
        return false;
      }
      complete := true;
    }
  }

  /** Completion means that no task without children is still open or in progress. */
  lemma CompleteIff(g: Graph)
    ensures Complete(g) <==>
      forall k :: k in g.nodes && g.nodes[k].children == [] ==>
        g.nodes[k].status != Open && g.nodes[k].status != InProgress
  {
  }

  /** The available ones among the first i ids. */
  ghost predicate Picked(g: Graph, ids: seq<string>, i: nat, available: seq<string>)
    requires i <= |ids|
  {
    Ascending(ids) && Elements(ids) == g.nodes.Keys && Ascending(available) &&
    forall k :: k in available <==> k in ids[..i] && IsAvailable(g, k)
  }

  lemma PickNext(g: Graph, ids: seq<string>, i: nat, available: seq<string>)
    requires i < |ids| && Picked(g, ids, i, available)
    ensures ids[i] in g.nodes
    ensures IsAvailable(g, ids[i]) ==> Picked(g, ids, i + 1, available + [ids[i]])
    ensures !IsAvailable(g, ids[i]) ==> Picked(g, ids, i + 1, available)
  {
    hide IsAvailable, Less;
    assert ids[i] in Elements(ids);
    assert ids[..i + 1] == ids[..i] + [ids[i]];
    forall j | 0 <= j < |available|
      ensures Less(available[j], ids[i])
    {
      assert available[j] in ids[..i];
    }
  }

  lemma PickedAll(g: Graph, ids: seq<string>, available: seq<string>)
    requires Picked(g, ids, |ids|, available)
    ensures forall k :: k in available <==> IsAvailable(g, k)
  {
    assert ids[..|ids|] == ids;
    assert forall k :: k in g.nodes ==> k in Elements(ids);
  }

  // ---- sinks of acyclic links ----

  lemma {:induction false} LongSequenceRepeats(p: seq<string>, s: set<string>)
    requires |p| > |s| && forall i :: 0 <= i < |p| ==> p[i] in s
    ensures exists i, j :: 0 <= i < j < |p| && p[i] == p[j]
    decreases |p|
  {
    var last := p[|p| - 1];
    var front := p[..|p| - 1];
    if last in front {
      var i :| 0 <= i < |front| && front[i] == last;
      assert p[i] == p[|p| - 1];
    } else {
      assert |s - {last}| == |s| - 1;
      LongSequenceRepeats(front, s - {last});
      var i, j :| 0 <= i < j < |front| && front[i] == front[j];
      assert p[i] == p[j];
    }
  }

  predicate LeadsInto(links: Links, k: string, s: set<string>) {
    k in links && exists d :: d in links[k] && d in s
  }

  lemma {:induction false} LongPath(links: Links, s: set<string>, n: nat) returns (p: seq<string>)
    requires s != {} && forall k :: k in s ==> LeadsInto(links, k, s)
    ensures |p| == n + 1 && IsPath(links, p) && forall i :: 0 <= i < |p| ==> p[i] in s
    decreases n
  {
    if n == 0 {
      var k :| k in s;
      p := [k];
    } else {
      var q := LongPath(links, s, n - 1);
      var last := q[|q| - 1];
      assert LeadsInto(links, last, s);
      var d :| d in links[last] && d in s;
      p := q + [d];
    }
  }

  lemma PartOfPath(links: Links, p: seq<string>, i: nat, j: nat)
    requires IsPath(links, p) && i <= j <= |p|
    ensures IsPath(links, p[i..j])
  {
    var part := p[i..j];
    forall m | 0 <= m < |part| - 1
      ensures part[m] in links && part[m + 1] in links[part[m]]
    {
      assert p[i + m] in links && p[i + m + 1] in links[p[i + m]];
    }
  }

  /** Without cycles every non-empty set of nodes has one that leads to none of them. */
  lemma AcyclicHasSink(links: Links, s: set<string>)
    requires Acyclic(links) && s != {}
    ensures exists k :: k in s && !LeadsInto(links, k, s)
  {
    if forall k :: k in s ==> LeadsInto(links, k, s) {
      var p := LongPath(links, s, |s|);
      LongSequenceRepeats(p, s);
      var i, j :| 0 <= i < j < |p| && p[i] == p[j];
      PartOfPath(links, p, i, j + 1);
      assert IsCycle(links, p[i..j + 1]);
    }
  }

  // ---- draining ----

  function OpenTasks(g: Graph): set<string> {
    set k | k in g.nodes && g.nodes[k].status == Open && !IsContainer(g.nodes[k])
  }

  /** No task is stuck from the start: none without children is in progress, and an open
      one misses nothing and depends only on what is closed or is itself an open task. */
  predicate Unstuck(g: Graph) {
    (forall k :: k in g.nodes && !IsContainer(g.nodes[k]) ==>
      g.nodes[k].status == Open || IsFinished(g.nodes[k].status)) &&
    (forall k :: k in OpenTasks(g) ==> MissesNone(g, k)) &&
    (forall k :: k in OpenTasks(g) ==> forall d :: d in g.nodes[k].dependencies ==> IsClosed(g, d) || d in OpenTasks(g))
  }

  ghost predicate Drainable(g: Graph) {
    Acyclic(DependencyLinks(g)) && Unstuck(g)
  }

  /** The trees the engine is meant for: nothing missing, tasks open or closed, and no
      dependency on a container that is not closed. */
  lemma PlainTreesDrain(g: Graph)
    requires Acyclic(DependencyLinks(g))
    requires forall k :: k in g.nodes ==> MissesNone(g, k)
    requires forall k :: k in g.nodes && !IsContainer(g.nodes[k]) ==>
      g.nodes[k].status == Open || g.nodes[k].status == Closed
    requires forall k :: k in g.nodes ==> forall d :: d in g.nodes[k].dependencies ==>
      d in g.nodes && (IsContainer(g.nodes[d]) ==> g.nodes[d].status == Closed)
    ensures Drainable(g)
  {
  }

  /** While a task is open, some task is available. */
  lemma SomeTaskAvailable(g: Graph)
    requires Drainable(g) && OpenTasks(g) != {}
    ensures exists k :: IsAvailable(g, k)
  {
    var links := DependencyLinks(g);
    AcyclicHasSink(links, OpenTasks(g));
    var k :| k in OpenTasks(g) && !LeadsInto(links, k, OpenTasks(g));
    forall d | d in g.nodes[k].dependencies
      ensures IsClosed(g, d)
    {
      assert d in links[k];
    }
    assert IsAvailable(g, k);
  }

  lemma CompleteWhenNoneOpen(g: Graph)
    requires Drainable(g)
    ensures Complete(g) <==> OpenTasks(g) == {}
  {
    if Complete(g) {
      assert forall k :: k in OpenTasks(g) ==> k in g.nodes;
    }
    if OpenTasks(g) == {} {
      forall k | k in g.nodes
        ensures IsFinished(g.nodes[k].status) || IsContainer(g.nodes[k])
      {
        assert k !in OpenTasks(g);
      }
    }
  }

  lemma CloseKeepsDrainable(g: Graph, k: string)
    requires Drainable(g) && IsAvailable(g, k)
    ensures Drainable(WithStatus(g, k, Closed))
    ensures OpenTasks(WithStatus(g, k, Closed)) == OpenTasks(g) - {k}
  {
    var g' := WithStatus(g, k, Closed);
    assert DependencyLinks(g') == DependencyLinks(g);
    OpenAfterClose(g, k);
    forall j | j in OpenTasks(g')
      ensures MissesNone(g', j) && forall d :: d in g'.nodes[j].dependencies ==> IsClosed(g', d) || d in OpenTasks(g')
    {
      assert j in OpenTasks(g) && MissesNone(g, j);
      assert g'.nodes[j] == g.nodes[j];
    }
    assert Unstuck(g');
  }

  lemma OpenAfterClose(g: Graph, k: string)
    requires k in g.nodes
    ensures OpenTasks(WithStatus(g, k, Closed)) == OpenTasks(g) - {k}
    ensures forall d :: IsClosed(WithStatus(g, k, Closed), d) <==> IsClosed(g, d) || d == k
  {
  }

  /** And the other way round: closing an available task frees nothing that was stuck. */
  lemma CloseUnstuckBack(g: Graph, k: string)
    requires IsAvailable(g, k) && Unstuck(WithStatus(g, k, Closed))
    ensures Unstuck(g)
  {
    var g' := WithStatus(g, k, Closed);
    OpenAfterClose(g, k);
    forall j | j in g.nodes && !IsContainer(g.nodes[j])
      ensures g.nodes[j].status == Open || IsFinished(g.nodes[j].status)
    {
      assert j in g'.nodes;
    }
    forall j | j in OpenTasks(g)
      ensures MissesNone(g, j)
      ensures forall d :: d in g.nodes[j].dependencies ==> IsClosed(g, d) || d in OpenTasks(g)
    {
      if j != k {
        assert j in OpenTasks(g') && MissesNone(g', j);
      }
    }
  }

  /** A run: each task closed was available at its time. */
  ghost predicate DrainRun(g: Graph, closed: seq<string>)
    decreases |closed|
  {
    closed == [] || (IsAvailable(g, closed[0]) && DrainRun(WithStatus(g, closed[0], Closed), closed[1..]))
  }

  ghost function AfterRun(g: Graph, closed: seq<string>): Graph
    requires DrainRun(g, closed)
    decreases |closed|
  {
    if closed == [] then g else AfterRun(WithStatus(g, closed[0], Closed), closed[1..])
  }

  /** The drain theorem: however the tasks are picked, a run closes no more tasks than
      were open, it is complete exactly when it has closed as many, and until then it
      can go on; no run gets stuck. */
  lemma {:induction false} Drains(g: Graph, closed: seq<string>)
    requires Drainable(g) && DrainRun(g, closed)
    ensures Drainable(AfterRun(g, closed))
    ensures |closed| <= |OpenTasks(g)|
    ensures Complete(AfterRun(g, closed)) <==> |closed| == |OpenTasks(g)|
    ensures |closed| < |OpenTasks(g)| ==> exists k :: IsAvailable(AfterRun(g, closed), k)
    decreases |closed|
  {
    if closed == [] {
      CompleteWhenNoneOpen(g);
      if OpenTasks(g) != {} {
        SomeTaskAvailable(g);
      }
    } else {
      var k := closed[0];
      CloseKeepsDrainable(g, k);
      assert k in OpenTasks(g);
      assert |OpenTasks(g) - {k}| == |OpenTasks(g)| - 1;
      Drains(WithStatus(g, k, Closed), closed[1..]);
    }
  }

  /** A run that leaves the graph complete. */
  ghost predicate Completes(g: Graph, closed: seq<string>) {
    DrainRun(g, closed) && Complete(AfterRun(g, closed))
  }

  lemma {:induction false} CompletedRunUnstuck(g: Graph, closed: seq<string>)
    requires Completes(g, closed)
    ensures Unstuck(g)
    decreases |closed|
  {
    if closed == [] {
      assert OpenTasks(g) == {};
    } else {
      CompletedRunUnstuck(WithStatus(g, closed[0], Closed), closed[1..]);
      CloseUnstuckBack(g, closed[0]);
    }
  }

  lemma {:induction false} FullRun(g: Graph) returns (closed: seq<string>)
    requires Drainable(g)
    ensures Completes(g, closed)
    decreases |OpenTasks(g)|
  {
    CompleteWhenNoneOpen(g);
    if OpenTasks(g) == {} {
      closed := [];
    } else {
      SomeTaskAvailable(g);
      var k :| IsAvailable(g, k);
      OfferedIsOpen(g, k);
      CloseKeepsDrainable(g, k);
      var rest := FullRun(WithStatus(g, k, Closed));
      closed := [k] + rest;
      assert closed[1..] == rest;
    }
  }

  /** Exactly when a graph without cycles can be completed at all: when no task is stuck
      from the start. */
  lemma CompletableIff(g: Graph)
    requires Acyclic(DependencyLinks(g))
    ensures Unstuck(g) <==> exists closed :: Completes(g, closed)
  {
    hide Unstuck, Completes, Acyclic;
    if Unstuck(g) {
      var closed := FullRun(g);
      assert Completes(g, closed);
    }
    if exists closed :: Completes(g, closed) {
      var closed :| Completes(g, closed);
      CompletedRunUnstuck(g, closed);
    }
  }

  /** Closing what GetNextAvailable offered is never refused: the loop of a runner that
      closes any offered task runs until the graph is complete. */
  method DrainAll(engine: TaskEngine) returns (steps: nat)
    requires Drainable(engine.g)
    modifies engine
    ensures Complete(engine.g)
    ensures steps == |OpenTasks(old(engine.g))|
  {
    hide Acyclic, Drainable, IsAvailable, Complete;
    steps := 0;
    while true
      invariant Drainable(engine.g)
      invariant steps + |OpenTasks(engine.g)| == |OpenTasks(old(engine.g))|
      decreases |OpenTasks(engine.g)|
    {
      CompleteWhenNoneOpen(engine.g);
      var complete := engine.IsComplete();
      if complete {
        return;
      }
      SomeTaskAvailable(engine.g);
      var available := engine.GetNextAvailable();
      var pick :| pick in available;
      OfferedIsOpen(engine.g, pick);
      CloseKeepsDrainable(engine.g, pick);
      var r := engine.UpdateTaskStatus(pick, Closed);
      steps := steps + 1;
    }
  }

  lemma OfferedIsOpen(g: Graph, k: string)
    requires IsAvailable(g, k)
    ensures k in g.nodes && DependenciesSatisfied(g, k)
    ensures k in OpenTasks(g) && |OpenTasks(g) - {k}| == |OpenTasks(g)| - 1
  {
  }
}
