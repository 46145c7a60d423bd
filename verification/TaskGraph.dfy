/** Building the task graph (internal/engine/engine.go, BuildGraph) from normalised
    tasks, their parent fields, and the stated relations. */
module TaskGraph {
  import opened Contracts
  import opened Ordering
  import opened CycleSearch
  import opened TaskLinks
  import opened Wrappers

  datatype Task = Task(parentId: string, status: TaskStatus, priority: int)

  datatype Node = Node(
    status: TaskStatus, priority: int, parent: Option<string>,
    children: seq<string>, dependencies: seq<string>, dependents: seq<string>, depth: nat)

  datatype Graph = Graph(root: string, nodes: map<string, Node>, missing: map<string, seq<string>>)

  datatype BuildResult =
    | Built(graph: Graph)
    | UnknownParent(task: string)
    | BadRelation(relation: Relation)
    | MultipleParents(child: string)
    | DependencyCycle(path: seq<string>)
    | ParentCycle

  // ---- when a tree is sound ----

  /** The parent field of a task other than the root, or a parent relation. */
  predicate IsParent(root: string, tasks: map<string, Task>, rs: seq<Relation>, p: string, c: string) {
    (c in tasks && c != root && p != "" && tasks[c].parentId == p) || StatesParent(rs, p, c)
  }

  predicate ParentsKnown(root: string, tasks: map<string, Task>) {
    forall c :: c in tasks && c != root && tasks[c].parentId != "" ==> tasks[c].parentId in tasks
  }

  predicate RelationsGood(tasks: map<string, Task>, rs: seq<Relation>) {
    forall r :: r in rs ==> GoodRelation(tasks.Keys, r)
  }

  ghost predicate NoSecondParent(root: string, tasks: map<string, Task>, rs: seq<Relation>) {
    forall p, q, c :: IsParent(root, tasks, rs, p, c) && IsParent(root, tasks, rs, q, c) ==> p == q
  }

  predicate DependencyStep(rs: seq<Relation>, c: seq<string>, i: nat) {
    i + 1 < |c| ==> StatesDependency(rs, c[i], c[i + 1])
  }

  ghost predicate IsDependencyCycle(rs: seq<Relation>, c: seq<string>) {
    |c| >= 2 && c[0] == c[|c| - 1] && forall i: nat :: DependencyStep(rs, c, i)
  }

  predicate ParentStep(root: string, tasks: map<string, Task>, rs: seq<Relation>, c: seq<string>, i: nat) {
    i + 1 < |c| ==> IsParent(root, tasks, rs, c[i + 1], c[i])
  }

  ghost predicate IsParentCycle(root: string, tasks: map<string, Task>, rs: seq<Relation>, c: seq<string>) {
    |c| >= 2 && c[0] == c[|c| - 1] && forall i: nat :: ParentStep(root, tasks, rs, c, i)
  }

  /** Everything stated is known, nobody has two parents, and nothing runs in a circle. */
  ghost predicate Sound(root: string, tasks: map<string, Task>, rs: seq<Relation>) {
    ParentsKnown(root, tasks) && RelationsGood(tasks, rs) && NoSecondParent(root, tasks, rs) &&
    (forall c :: !IsDependencyCycle(rs, c)) && (forall c :: !IsParentCycle(root, tasks, rs, c))
  }

  ghost predicate TwoParents(root: string, tasks: map<string, Task>, rs: seq<Relation>, c: string) {
    exists p, q :: p != q && IsParent(root, tasks, rs, p, c) && IsParent(root, tasks, rs, q, c)
  }

  /** Each error names a defect the tree really has. */
  ghost predicate Justified(r: BuildResult, root: string, tasks: map<string, Task>, rs: seq<Relation>) {
    match r
    case Built(_) => true
    case UnknownParent(t) => t in tasks && t != root && tasks[t].parentId != "" && tasks[t].parentId !in tasks
    case BadRelation(relation) => relation in rs && !GoodRelation(tasks.Keys, relation)
    case MultipleParents(c) => TwoParents(root, tasks, rs, c)
    case DependencyCycle(path) => IsDependencyCycle(rs, path)
    case ParentCycle => exists c :: IsParentCycle(root, tasks, rs, c)
  }

  lemma JustifiedErrorUnsound(r: BuildResult, root: string, tasks: map<string, Task>, rs: seq<Relation>)
    requires Justified(r, root, tasks, rs) && !r.Built?
    ensures !Sound(root, tasks, rs)
  {
    if r.MultipleParents? {
      var p, q :| p != q && IsParent(root, tasks, rs, p, r.child) && IsParent(root, tasks, rs, q, r.child);
    }
  }

  // ---- what is built ----

  function DependencyLinks(g: Graph): Links {
    map k | k in g.nodes :: g.nodes[k].dependencies
  }

  /** A node as the tree states it, its link lists sorted and without repeats. */
  ghost predicate NodeFits(g: Graph, root: string, tasks: map<string, Task>, rs: seq<Relation>, k: string)
    requires k in g.nodes && k in tasks
  {
    var n := g.nodes[k];
    n.status == tasks[k].status && n.priority == tasks[k].priority &&
    Ascending(n.children) && Ascending(n.dependencies) && Ascending(n.dependents) &&
    (forall p :: n.parent == Some(p) <==> IsParent(root, tasks, rs, p, k)) &&
    (forall c :: c in n.children <==> IsParent(root, tasks, rs, k, c)) &&
    (forall d :: d in n.dependencies <==> StatesDependency(rs, k, d)) &&
    (forall t :: t in n.dependents <==> StatesDependency(rs, t, k))
  }

  ghost predicate DepthFits(g: Graph, k: string)
    requires k in g.nodes
  {
    match g.nodes[k].parent
    case None => g.nodes[k].depth == 0
    case Some(p) => p in g.nodes && g.nodes[k].depth == g.nodes[p].depth + 1
  }

  ghost predicate GraphOf(g: Graph, root: string, tasks: map<string, Task>, rs: seq<Relation>,
                          missing: map<string, seq<string>>) {
    g.root == root && g.missing == missing && g.nodes.Keys == tasks.Keys &&
    forall k :: k in tasks ==> NodeFits(g, root, tasks, rs, k) && DepthFits(g, k)
  }

  // ---- the declared parents, as relations ----

  function Declared(root: string, tasks: map<string, Task>, ids: seq<string>): seq<Relation> {
    if ids == [] then [] else
      var id := ids[|ids| - 1];
      var front := Declared(root, tasks, ids[..|ids| - 1]);
      if id in tasks && id != root && tasks[id].parentId != "" then
        front + [Relation(tasks[id].parentId, id, ParentOf)]
      else front
  }

  lemma {:induction false} DeclaredMembers(root: string, tasks: map<string, Task>, ids: seq<string>)
    ensures forall r :: r in Declared(root, tasks, ids) <==>
      r.kind == ParentOf && r.to in ids && r.to in tasks && r.to != root && r.from != "" &&
      tasks[r.to].parentId == r.from
    decreases |ids|
  {
    if ids != [] {
      var front := ids[..|ids| - 1];
      DeclaredMembers(root, tasks, front);
      assert ids == front + [ids[|ids| - 1]];
    }
  }

  /** All that is stated about links, the declared parents first. */
  function AllStated(root: string, tasks: map<string, Task>, rs: seq<Relation>): seq<Relation> {
    Declared(root, tasks, SortedKeys(tasks.Keys)) + rs
  }

  lemma StatedIs(root: string, tasks: map<string, Task>, rs: seq<Relation>)
    ensures forall p, c :: StatesParent(AllStated(root, tasks, rs), p, c) <==> IsParent(root, tasks, rs, p, c)
    ensures forall t, d :: StatesDependency(AllStated(root, tasks, rs), t, d) <==> StatesDependency(rs, t, d)
  {
    var ids := SortedKeys(tasks.Keys);
    DeclaredMembers(root, tasks, ids);
    assert forall k :: k in ids <==> k in Elements(ids);
  }

  lemma AllInNodes(root: string, tasks: map<string, Task>, rs: seq<Relation>)
    requires ParentsKnown(root, tasks) && RelationsGood(tasks, rs)
    ensures InNodes(tasks.Keys, AllStated(root, tasks, rs))
    ensures forall r :: r in AllStated(root, tasks, rs) ==> Supported(r.kind)
  {
    DeclaredMembers(root, tasks, SortedKeys(tasks.Keys));
  }

  // ---- cycles of the tables and cycles of the statements ----

  lemma DependencyCyclesAgree(tb: Tables, root: string, tasks: map<string, Task>, rs: seq<Relation>)
    requires RelationsGood(tasks, rs) && Holds(tb, tasks.Keys, AllStated(root, tasks, rs))
    ensures ClosedLinks(tb.deps)
    ensures Acyclic(tb.deps) <==> forall c :: !IsDependencyCycle(rs, c)
    ensures forall c :: IsCycle(tb.deps, c) <==> IsDependencyCycle(rs, c)
  {
    StatedIs(root, tasks, rs);
    forall c
      ensures IsCycle(tb.deps, c) <==> IsDependencyCycle(rs, c)
    {
      if IsCycle(tb.deps, c) {
        forall i: nat
          ensures DependencyStep(rs, c, i)
        {
          if i + 1 < |c| {
            assert c[i] in tb.deps && c[i + 1] in tb.deps[c[i]];
          }
        }
      }
      if IsDependencyCycle(rs, c) {
        forall i | 0 <= i < |c| - 1
          ensures c[i] in tb.deps && c[i + 1] in tb.deps[c[i]]
        {
          assert DependencyStep(rs, c, i);
        }
      }
    }
  }

  lemma ParentCyclesAgree(tb: Tables, root: string, tasks: map<string, Task>, rs: seq<Relation>)
    requires ParentsKnown(root, tasks) && RelationsGood(tasks, rs) && Holds(tb, tasks.Keys, AllStated(root, tasks, rs))
    ensures ParentsClosed(tasks.Keys, tb.parents)
    ensures Acyclic(ParentLinks(tasks.Keys, tb.parents)) <==> forall c :: !IsParentCycle(root, tasks, rs, c)
  {
    hide SortedKeys, Declared, AllStated, OnceEach;
    StatedIs(root, tasks, rs);
    var links := ParentLinks(tasks.Keys, tb.parents);
    forall k | k in tb.parents
      ensures k in tasks && tb.parents[k] in tasks
    {
      assert IsParent(root, tasks, rs, tb.parents[k], k);
    }
    forall c
      ensures IsCycle(links, c) <==> IsParentCycle(root, tasks, rs, c)
    {
      if IsCycle(links, c) {
        forall i: nat
          ensures ParentStep(root, tasks, rs, c, i)
        {
          if i + 1 < |c| {
            assert c[i] in links && c[i + 1] in links[c[i]];
          }
        }
      }
      if IsParentCycle(root, tasks, rs, c) {
        forall i | 0 <= i < |c| - 1
          ensures c[i] in links && c[i + 1] in links[c[i]]
        {
          assert ParentStep(root, tasks, rs, c, i);
          assert IsParent(root, tasks, rs, c[i + 1], c[i]);
        }
      }
    }
  }

  /** A link that cannot be made is a second parent for its child. */
  lemma SecondParent(root: string, tasks: map<string, Task>, rs: seq<Relation>, part: seq<Relation>, tb: Tables,
                     p: string, c: string)
    requires InNodes(tasks.Keys, part) && forall r :: r in part ==> Supported(r.kind)
    requires forall r :: r in part ==> r in AllStated(root, tasks, rs)
    requires ApplyAll(Fresh(tasks.Keys), part) == Some(tb) && WithParent(tb, p, c).None?
    requires IsParent(root, tasks, rs, p, c)
    ensures TwoParents(root, tasks, rs, c)
  {
    LinksHold(tasks.Keys, part);
    StatedIs(root, tasks, rs);
    var q := tb.parents[c];
    assert StatesParent(part, q, c);
    assert StatesParent(AllStated(root, tasks, rs), q, c);
    assert p != q && IsParent(root, tasks, rs, q, c);
  }

  lemma AllLinked(root: string, tasks: map<string, Task>, rs: seq<Relation>, tb: Tables)
    requires ParentsKnown(root, tasks) && RelationsGood(tasks, rs)
    requires ApplyAll(Fresh(tasks.Keys), AllStated(root, tasks, rs)) == Some(tb)
    ensures Holds(tb, tasks.Keys, AllStated(root, tasks, rs)) && NoSecondParent(root, tasks, rs)
  {
    AllInNodes(root, tasks, rs);
    LinksHold(tasks.Keys, AllStated(root, tasks, rs));
    StatedIs(root, tasks, rs);
    forall p, q, c | IsParent(root, tasks, rs, p, c) && IsParent(root, tasks, rs, q, c)
      ensures p == q
    {
      assert StatesParent(AllStated(root, tasks, rs), p, c) && StatesParent(AllStated(root, tasks, rs), q, c);
    }
  }

  // ---- assembling the nodes ----

  function NodeFrom(tb: Tables, depth: map<string, nat>, task: Task, k: string): Node
    requires k in tb.children && k in tb.deps && k in tb.dependents && k in depth
  {
    Node(task.status, task.priority, if k in tb.parents then Some(tb.parents[k]) else None,
         SortedKeys(Elements(tb.children[k])), SortedKeys(Elements(tb.deps[k])),
           SortedKeys(Elements(tb.dependents[k])), depth[k])
  }

  function Assembled(root: string, tasks: map<string, Task>, tb: Tables, depth: map<string, nat>,
                     missing: map<string, seq<string>>): Graph
    requires tb.children.Keys == tb.deps.Keys == tb.dependents.Keys == depth.Keys == tasks.Keys
  {
    Graph(root, map k | k in tasks :: NodeFrom(tb, depth, tasks[k], k), missing)
  }

  lemma SortedMembers(s: seq<string>)
    ensures Ascending(SortedKeys(Elements(s))) && forall k :: k in SortedKeys(Elements(s)) <==> k in s
  {
    var sorted := SortedKeys(Elements(s));
    assert forall k :: k in sorted <==> k in Elements(sorted);
  }

  lemma AssembledDepth(parents: map<string, string>, depth: map<string, nat>, k: string)
    requires DepthsFit(parents, depth) && k in depth
    ensures if k in parents then parents[k] in depth && depth[k] == depth[parents[k]] + 1 else depth[k] == 0
  {
  }

  lemma AssembledNodeFits(root: string, tasks: map<string, Task>, rs: seq<Relation>, tb: Tables,
                          depth: map<string, nat>, missing: map<string, seq<string>>, k: string)
    requires Holds(tb, tasks.Keys, AllStated(root, tasks, rs)) && depth.Keys == tasks.Keys &&
      DepthsFit(tb.parents, depth) && k in tasks
    ensures var g := Assembled(root, tasks, tb, depth, missing); NodeFits(g, root, tasks, rs, k) && DepthFits(g, k)
  {
    hide SortedKeys, Ascending, Elements, Declared, AllStated, DepthsFit, OnceEach;
    StatedIs(root, tasks, rs);
    SortedMembers(tb.children[k]);
    SortedMembers(tb.deps[k]);
    SortedMembers(tb.dependents[k]);
    AssembledDepth(tb.parents, depth, k);
  }

  lemma AssembledFits(root: string, tasks: map<string, Task>, rs: seq<Relation>, tb: Tables, depth: map<string, nat>,
                      missing: map<string, seq<string>>)
    requires Holds(tb, tasks.Keys, AllStated(root, tasks, rs)) && depth.Keys == tasks.Keys &&
      DepthsFit(tb.parents, depth)
    ensures tb.children.Keys == tb.deps.Keys == tb.dependents.Keys == tasks.Keys
    ensures GraphOf(Assembled(root, tasks, tb, depth, missing), root, tasks, rs, missing)
  {
    hide SortedKeys, Holds, NodeFits, DepthFits, DepthsFit, AllStated;
    HoldsKeys(tb, tasks, AllStated(root, tasks, rs));
    var g := Assembled(root, tasks, tb, depth, missing);
    forall k | k in tasks
      ensures NodeFits(g, root, tasks, rs, k) && DepthFits(g, k)
    {
      AssembledNodeFits(root, tasks, rs, tb, depth, missing, k);
    }
  }

  // ---- the method ----

  /** The first loop: the parent fields, in id order. */
  method LinkDeclaredParents(root: string, tasks: map<string, Task>, ghost rs: seq<Relation>)
    returns (err: Option<BuildResult>, tb: Tables)
    ensures err.None? ==> ParentsKnown(root, tasks)
    ensures err.None? ==> ApplyAll(Fresh(tasks.Keys), Declared(root, tasks, SortedKeys(tasks.Keys))) == Some(tb)
    ensures err.Some? ==> !err.value.Built? && Justified(err.value, root, tasks, rs)
  {
    hide SortedKeys, ApplyAll, Declared, Ascending, Less, WithParent;
    err, tb := None, Fresh(tasks.Keys);
    NothingDeclared(root, tasks);
    var ids := SortedKeys(tasks.Keys);
    var i := 0;
    while i < |ids|
      invariant 0 <= i <= |ids|
      invariant ApplyAll(Fresh(tasks.Keys), Declared(root, tasks, ids[..i])) == Some(tb)
      invariant forall j :: 0 <= j < i ==> ParentKnown(root, tasks, ids[j])
    {
      var id := ids[i];
      DeclaredNext(root, tasks, ids, i);
      if id != root && tasks[id].parentId != "" {
        var parent := tasks[id].parentId;
        if parent !in tasks {
          return Some(UnknownParent(id)), tb;
        }
        var next := WithParent(tb, parent, id);
        if next.None? {
          DeclaredFailure(root, tasks, rs, i, tb, id);
          return Some(MultipleParents(id)), tb;
        }
        tb := next.value;
      }
      i := i + 1;
    }
    assert ids[..|ids|] == ids;
    AllKnown(root, tasks, ids);
  }

  lemma NothingDeclared(root: string, tasks: map<string, Task>)
    ensures ApplyAll(Fresh(tasks.Keys), Declared(root, tasks, SortedKeys(tasks.Keys)[..0])) == Some(Fresh(tasks.Keys))
  {
  }

  predicate ParentKnown(root: string, tasks: map<string, Task>, id: string) {
    id in tasks && (id != root && tasks[id].parentId != "" ==> tasks[id].parentId in tasks)
  }

  lemma AllKnown(root: string, tasks: map<string, Task>, ids: seq<string>)
    requires Elements(ids) == tasks.Keys && forall j :: 0 <= j < |ids| ==> ParentKnown(root, tasks, ids[j])
    ensures ParentsKnown(root, tasks)
  {
    forall c | c in tasks
      ensures ParentKnown(root, tasks, c)
    {
      assert c in Elements(ids);
    }
    assert forall c :: c in tasks ==> ParentKnown(root, tasks, c);
  }

  lemma DeclaredNext(root: string, tasks: map<string, Task>, ids: seq<string>, i: nat)
    requires i < |ids| && Elements(ids) == tasks.Keys
    ensures ids[i] in tasks
    ensures var before := ApplyAll(Fresh(tasks.Keys), Declared(root, tasks, ids[..i]));
      before.Some? ==>
        ApplyAll(Fresh(tasks.Keys), Declared(root, tasks, ids[..i + 1])) ==
        (if ids[i] != root && tasks[ids[i]].parentId != "" then
          WithParent(before.value, tasks[ids[i]].parentId, ids[i]) else before)
  {
    assert ids[i] in Elements(ids);
    assert ids[..i + 1][..i] == ids[..i];
    var done := Declared(root, tasks, ids[..i]);
    var r := Relation(tasks[ids[i]].parentId, ids[i], ParentOf);
    assert (done + [r])[..|done|] == done;
  }

  lemma DeclaredFailure(root: string, tasks: map<string, Task>, rs: seq<Relation>, n: nat, tb: Tables, id: string)
    requires n <= |SortedKeys(tasks.Keys)| &&
      forall j :: 0 <= j < n ==> ParentKnown(root, tasks, SortedKeys(tasks.Keys)[j])
    requires ApplyAll(Fresh(tasks.Keys), Declared(root, tasks, SortedKeys(tasks.Keys)[..n])) == Some(tb)
    requires id in tasks && id != root && tasks[id].parentId != "" && WithParent(tb, tasks[id].parentId, id).None?
    ensures TwoParents(root, tasks, rs, id)
  {
    var ids := SortedKeys(tasks.Keys);
    var part := Declared(root, tasks, ids[..n]);
    DeclaredMembers(root, tasks, ids[..n]);
    DeclaredMembers(root, tasks, ids);
    forall r | r in part
      ensures r.from in tasks.Keys && r.to in tasks.Keys && Supported(r.kind) && r in AllStated(root, tasks, rs)
    {
      var j :| 0 <= j < n && ids[j] == r.to;
      assert ParentKnown(root, tasks, ids[j]);
    }
    SecondParent(root, tasks, rs, part, tb, tasks[id].parentId, id);
  }

  /** The second loop: every stated relation, checked and linked in order. */
  method LinkRelations(root: string, tasks: map<string, Task>, rs: seq<Relation>, declared: Tables)
    returns (err: Option<BuildResult>, tb: Tables)
    requires ParentsKnown(root, tasks)
    requires ApplyAll(Fresh(tasks.Keys), Declared(root, tasks, SortedKeys(tasks.Keys))) == Some(declared)
    ensures err.None? ==> RelationsGood(tasks, rs)
    ensures err.None? ==> ApplyAll(Fresh(tasks.Keys), AllStated(root, tasks, rs)) == Some(tb)
    ensures err.Some? ==> !err.value.Built? && Justified(err.value, root, tasks, rs)
  {
    hide SortedKeys, ApplyAll, Declared;
    err, tb := None, declared;
    assert AllStated(root, tasks, rs[..0]) == Declared(root, tasks, SortedKeys(tasks.Keys));
    var i := 0;
    while i < |rs|
      invariant 0 <= i <= |rs|
      invariant ApplyAll(Fresh(tasks.Keys), AllStated(root, tasks, rs[..i])) == Some(tb)
      invariant RelationsGood(tasks, rs[..i])
    {
      var r := rs[i];
      if r.from == "" || r.to == "" || r.from == r.to || r.from !in tasks || r.to !in tasks {
        return Some(BadRelation(r)), tb;
      }
      if r.kind.Unsupported? {
        return Some(BadRelation(r)), tb;
      }
      RelationNext(root, tasks, rs, i);
      var next := Apply(tb, r);
      if next.None? {
        RelationFailure(root, tasks, rs, i, tb);
        return Some(MultipleParents(r.to)), tb;
      }
      tb := next.value;
      i := i + 1;
    }
    assert rs[..|rs|] == rs;
  }

  lemma RelationNext(root: string, tasks: map<string, Task>, rs: seq<Relation>, i: nat)
    requires i < |rs| && RelationsGood(tasks, rs[..i]) && GoodRelation(tasks.Keys, rs[i])
    ensures RelationsGood(tasks, rs[..i + 1])
    ensures var all := AllStated(root, tasks, rs[..i]);
      ApplyAll(Fresh(tasks.Keys), all).Some? ==>
      ApplyAll(Fresh(tasks.Keys), AllStated(root, tasks, rs[..i + 1])) ==
        Apply(ApplyAll(Fresh(tasks.Keys), all).value, rs[i])
  {
    hide SortedKeys, Declared;
    var all := AllStated(root, tasks, rs[..i]);
    assert rs[..i + 1] == rs[..i] + [rs[i]];
    assert AllStated(root, tasks, rs[..i + 1]) == all + [rs[i]];
    assert (all + [rs[i]])[..|all|] == all;
  }

  lemma RelationFailure(root: string, tasks: map<string, Task>, rs: seq<Relation>, i: nat, tb: Tables)
    requires i < |rs| && ParentsKnown(root, tasks) && RelationsGood(tasks, rs[..i]) && GoodRelation(tasks.Keys, rs[i])
    requires ApplyAll(Fresh(tasks.Keys), AllStated(root, tasks, rs[..i])) == Some(tb) && Apply(tb, rs[i]).None?
    ensures TwoParents(root, tasks, rs, rs[i].to)
  {
    hide SortedKeys, Declared, ApplyAll;
    AllInNodes(root, tasks, rs[..i]);
    SecondParent(root, tasks, rs, AllStated(root, tasks, rs[..i]), tb, rs[i].from, rs[i].to);
  }

  /** The graph is built exactly when the tree is sound, and then it is the graph of the
      tree: every stated link, from both ends, once, sorted; depths along the parents. */
  method BuildGraph(root: string, tasks: map<string, Task>, rs: seq<Relation>, missing: map<string, seq<string>>)
    returns (result: BuildResult)
    ensures result.Built? <==> Sound(root, tasks, rs)
    ensures Justified(result, root, tasks, rs)
    ensures result.Built? ==> GraphOf(result.graph, root, tasks, rs, missing)
    ensures result.Built? ==> Acyclic(DependencyLinks(result.graph))
  {
    hide SortedKeys, ApplyAll, Declared, Holds, Acyclic, RelationsGood, ParentsKnown, GraphOf, ClosedLinks,
      ParentsClosed, AllStated, NoSecondParent;
    var err, declared := LinkDeclaredParents(root, tasks, rs);
    if err.Some? {
      JustifiedErrorUnsound(err.value, root, tasks, rs);
      return err.value;
    }
    var tb: Tables;
    err, tb := LinkRelations(root, tasks, rs, declared);
    if err.Some? {
      JustifiedErrorUnsound(err.value, root, tasks, rs);
      return err.value;
    }
    AllLinked(root, tasks, rs, tb);
    DependencyCyclesAgree(tb, root, tasks, rs);
    ParentCyclesAgree(tb, root, tasks, rs);
    var cycle, _ := FindDependencyCycle(tb.deps);
    if cycle != [] { return DependencyCycle(cycle); }
    var depth, circular := AssignDepths(tasks.Keys, tb.parents);
    if circular { return ParentCycle; }
    HoldsKeys(tb, tasks, AllStated(root, tasks, rs));
    AssembledFits(root, tasks, rs, tb, depth, missing);
    AssembledAcyclic(root, tasks, tb, depth, missing);
    result := Built(Assembled(root, tasks, tb, depth, missing));
  }

  lemma HoldsKeys(tb: Tables, tasks: map<string, Task>, stated: seq<Relation>)
    requires Holds(tb, tasks.Keys, stated)
    ensures tb.children.Keys == tb.deps.Keys == tb.dependents.Keys == tasks.Keys
  {
  }

  lemma AssembledAcyclic(root: string, tasks: map<string, Task>, tb: Tables, depth: map<string, nat>,
                         missing: map<string, seq<string>>)
    requires tb.children.Keys == tb.deps.Keys == tb.dependents.Keys == depth.Keys == tasks.Keys
    requires Acyclic(tb.deps)
    ensures Acyclic(DependencyLinks(Assembled(root, tasks, tb, depth, missing)))
  {
    var links := DependencyLinks(Assembled(root, tasks, tb, depth, missing));
    forall k | k in tasks
      ensures forall d :: d in links[k] <==> d in tb.deps[k]
    {
      SortedMembers(tb.deps[k]);
    }
    assert forall c :: IsCycle(links, c) ==> IsCycle(tb.deps, c);
  }
}
