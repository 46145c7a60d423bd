/** Parent and dependency links of a task graph under construction
    (internal/engine/engine.go, linkParent, linkDependency and the loops of BuildGraph). */
module TaskLinks {
  import opened CycleSearch
  import opened Ordering
  import opened Wrappers

  datatype Kind = ParentOf | DependsOn | Blocks | Unsupported(name: string)
  datatype Relation = Relation(from: string, to: string, kind: Kind)

  /** parents: child to parent; the other tables list children, dependencies, dependents. */
  datatype Tables = Tables(parents: map<string, string>, children: Links, deps: Links, dependents: Links)

  function NoLinks(nodes: set<string>): Links {
    map k | k in nodes :: []
  }

  function Fresh(nodes: set<string>): Tables {
    Tables(map[], NoLinks(nodes), NoLinks(nodes), NoLinks(nodes))
  }

  /** Adds v to the list of k, once. */
  function Linked(table: Links, k: string, v: string): Links {
    if k in table && v !in table[k] then table[k := table[k] + [v]] else table
  }

  /** A child keeps its first parent; stating another one is an error. */
  function WithParent(tb: Tables, parent: string, child: string): Option<Tables> {
    if child in tb.parents then (if tb.parents[child] == parent then Some(tb) else None)
    else Some(tb.(parents := tb.parents[child := parent], children := Linked(tb.children, parent, child)))
  }

  function WithDependency(tb: Tables, task: string, dependency: string): Tables {
    tb.(deps := Linked(tb.deps, task, dependency), dependents := Linked(tb.dependents, dependency, task))
  }

  predicate Supported(kind: Kind) {
    !kind.Unsupported?
  }

  /** What BuildGraph checks of a relation before it links anything. */
  predicate GoodRelation(nodes: set<string>, r: Relation) {
    r.from != "" && r.to != "" && r.from != r.to && r.from in nodes && r.to in nodes && Supported(r.kind)
  }

  function Apply(tb: Tables, r: Relation): Option<Tables> {
    match r.kind
    case ParentOf => WithParent(tb, r.from, r.to)
    case DependsOn => Some(WithDependency(tb, r.from, r.to))
    case Blocks => Some(WithDependency(tb, r.to, r.from))
    case Unsupported(_) => None
  }

  /** All of the relations in their order; None at the first error. */
  function ApplyAll(tb: Tables, rs: seq<Relation>): Option<Tables> {
    if rs == [] then Some(tb) else
      var before := ApplyAll(tb, rs[..|rs| - 1]);
      if before.None? then None else Apply(before.value, rs[|rs| - 1])
  }

  // ---- what the relations state ----

  predicate StatesParent(rs: seq<Relation>, parent: string, child: string) {
    Relation(parent, child, ParentOf) in rs
  }

  predicate StatesDependency(rs: seq<Relation>, task: string, dependency: string) {
    Relation(task, dependency, DependsOn) in rs || Relation(dependency, task, Blocks) in rs
  }

  /** No two relations give a child different parents. */
  ghost predicate OneParentEach(rs: seq<Relation>) {
    forall p, q, c :: StatesParent(rs, p, c) && StatesParent(rs, q, c) ==> p == q
  }

  predicate OnceEach(table: Links) {
    forall k :: k in table ==> NoRepeats(table[k])
  }

  /** The tables hold what the relations state, each link once and seen from both ends. */
  ghost predicate Holds(tb: Tables, nodes: set<string>, rs: seq<Relation>) {
    tb.children.Keys == nodes && tb.deps.Keys == nodes && tb.dependents.Keys == nodes &&
    OnceEach(tb.children) && OnceEach(tb.deps) && OnceEach(tb.dependents) &&
    (forall c, p :: (c in tb.parents && tb.parents[c] == p) <==> StatesParent(rs, p, c)) &&
    (forall p, c :: p in nodes ==> (c in tb.children[p] <==> StatesParent(rs, p, c))) &&
    (forall t, d :: t in nodes ==> (d in tb.deps[t] <==> StatesDependency(rs, t, d))) &&
    (forall t, d :: d in nodes ==> (t in tb.dependents[d] <==> StatesDependency(rs, t, d)))
  }

  lemma LinkedMembers(table: Links, k: string, v: string)
    requires k in table
    ensures Linked(table, k, v).Keys == table.Keys
    ensures forall j, w :: j in table ==> (w in Linked(table, k, v)[j] <==> w in table[j] || (j == k && w == v))
    ensures OnceEach(table) ==> OnceEach(Linked(table, k, v))
  {
  }

  predicate InNodes(nodes: set<string>, rs: seq<Relation>) {
    forall r :: r in rs ==> r.from in nodes && r.to in nodes
  }

  lemma StatesAppend(rs: seq<Relation>, r: Relation)
    ensures forall p, c :: StatesParent(rs + [r], p, c) <==> StatesParent(rs, p, c) || r == Relation(p, c, ParentOf)
    ensures forall t, d :: StatesDependency(rs + [r], t, d) <==>
      StatesDependency(rs, t, d) || r == Relation(t, d, DependsOn) || r == Relation(d, t, Blocks)
  {
  }

  lemma ParentHolds(tb: Tables, nodes: set<string>, rs: seq<Relation>, p: string, c: string)
    requires Holds(tb, nodes, rs) && p in nodes && c in nodes
    ensures WithParent(tb, p, c).Some? ==> Holds(WithParent(tb, p, c).value, nodes, rs + [Relation(p, c, ParentOf)])
    ensures WithParent(tb, p, c).None? ==> exists q :: q != p && StatesParent(rs, q, c)
  {
    StatesAppend(rs, Relation(p, c, ParentOf));
    LinkedMembers(tb.children, p, c);
    if c in tb.parents {
      assert StatesParent(rs, tb.parents[c], c);
    }
  }

  lemma DependencyHolds(tb: Tables, nodes: set<string>, rs: seq<Relation>, r: Relation)
    requires Holds(tb, nodes, rs) && r.from in nodes && r.to in nodes && (r.kind.DependsOn? || r.kind.Blocks?)
    ensures Holds(Apply(tb, r).value, nodes, rs + [r])
  {
    var t, d := if r.kind.DependsOn? then r.from else r.to, if r.kind.DependsOn? then r.to else r.from;
    StatesAppend(rs, r);
    LinkedMembers(tb.deps, t, d);
    LinkedMembers(tb.dependents, d, t);
  }

  /** Linking all relations succeeds exactly when no child is given two parents, and then
      the tables are exactly what the relations state. */
  lemma {:induction false} LinksHold(nodes: set<string>, rs: seq<Relation>)
    requires InNodes(nodes, rs) && forall r :: r in rs ==> Supported(r.kind)
    ensures ApplyAll(Fresh(nodes), rs).Some? <==> OneParentEach(rs)
    ensures ApplyAll(Fresh(nodes), rs).Some? ==> Holds(ApplyAll(Fresh(nodes), rs).value, nodes, rs)
    decreases |rs|
  {
    if rs != [] {
      var front, last := rs[..|rs| - 1], rs[|rs| - 1];
      assert rs == front + [last];
      LinksHold(nodes, front);
      StatesAppend(front, last);
      if OneParentEach(front) {
        var tb := ApplyAll(Fresh(nodes), front).value;
        if last.kind.ParentOf? {
          ParentHolds(tb, nodes, front, last.from, last.to);
        } else {
          DependencyHolds(tb, nodes, front, last);
        }
      }
    }
  }
}
