/** The recommended number of workers (internal/engine/engine.go, CalculateConcurrency):
    the graph is peeled level by level and the widest level counts. */
module GraphLevels {
  import opened Contracts
  import opened Ordering
  import opened CycleSearch
  import opened TaskLinks
  import opened TaskGraph
  import opened GraphDrain
  import opened Wrappers

  // ---- graphs as built ----

  function Deps(g: Graph, k: string): set<string>
    requires k in g.nodes
  {
    Elements(g.nodes[k].dependencies)
  }

  /** Dependencies and dependents are listed once each and mirror one another. */
  predicate Linked(g: Graph) {
    (forall k :: k in g.nodes ==> Ascending(g.nodes[k].dependencies) && Ascending(g.nodes[k].dependents)) &&
    (forall k :: k in g.nodes ==> forall d :: d in g.nodes[k].dependencies ==>
      d in g.nodes && k in g.nodes[d].dependents) &&
    (forall k :: k in g.nodes ==> forall t :: t in g.nodes[k].dependents ==>
      t in g.nodes && k in g.nodes[t].dependencies)
  }

  lemma BuiltGraphsAreLinked(g: Graph, root: string, tasks: map<string, Task>, rs: seq<Relation>,
                             missing: map<string, seq<string>>)
    requires RelationsGood(tasks, rs) && GraphOf(g, root, tasks, rs, missing)
    ensures Linked(g)
  {
    forall k, t | k in g.nodes
      ensures t in g.nodes[k].dependents ==> t in g.nodes && k in g.nodes[t].dependencies
      ensures t in g.nodes[k].dependencies ==> t in g.nodes && k in g.nodes[t].dependents
    {
      assert NodeFits(g, root, tasks, rs, k);
      if t in g.nodes {
        assert NodeFits(g, root, tasks, rs, t);
      }
    }
  }

  // ---- levels ----

  /** Peeling such a node releases its dependents. */
  predicate Releases(g: Graph, k: string) {
    k in g.nodes && (g.nodes[k].status == Open || g.nodes[k].status == Closed)
  }

  function Waiting(g: Graph, k: string): set<string>
    requires k in g.nodes
  {
    set d | d in Deps(g, k) && d in g.nodes && g.nodes[d].status != Closed
  }

  function Released(g: Graph, done: set<string>, k: string): set<string>
    requires k in g.nodes
  {
    set d | d in Deps(g, k) && d in done && Releases(g, d)
  }

  function Initial(g: Graph, k: string): nat
    requires k in g.nodes
  {
    |Waiting(g, k)| + if MissesNone(g, k) then 0 else 1
  }

  /** What the counter of k stands at once the nodes in done have been peeled. */
  function Degree(g: Graph, done: set<string>, k: string): int
    requires k in g.nodes
  {
    Initial(g, k) - |Released(g, done, k)|
  }

  /** The nodes whose counter has come down to zero: those peeled and those next. */
  function Reach(g: Graph, done: set<string>): set<string> {
    set k | k in g.nodes && Degree(g, done, k) <= 0
  }

  function Tasks(g: Graph, level: set<string>): set<string> {
    set k | k in level && k in g.nodes && g.nodes[k].status == Open && !IsContainer(g.nodes[k])
  }

  lemma SubsetSize<T>(a: set<T>, b: set<T>)
    requires forall x :: x in a ==> x in b
    ensures |a| <= |b|
    ensures |a| == |b| ==> a == b
  {
    assert b == a + (b - a);
    if |a| == |b| {
      assert b - a == {};
    }
  }

  lemma ReachGrows(g: Graph, done: set<string>, more: set<string>)
    requires forall k :: k in done ==> k in more
    ensures forall k :: k in Reach(g, done) ==> k in Reach(g, more)
  {
    forall k | k in g.nodes
      ensures Degree(g, more, k) <= Degree(g, done, k)
    {
      SubsetSize(Released(g, done, k), Released(g, more, k));
    }
  }

  /** What has been peeled after n levels. */
  function Peeled(g: Graph, n: nat): set<string> {
    if n == 0 then {} else Reach(g, Peeled(g, n - 1))
  }

  function Level(g: Graph, n: nat): set<string> {
    Peeled(g, n + 1) - Peeled(g, n)
  }

  lemma {:induction false} PeeledGrows(g: Graph, m: nat, n: nat)
    requires m <= n
    ensures forall k :: k in Peeled(g, m) ==> k in Peeled(g, n)
    decreases m
  {
    if m > 0 {
      PeeledGrows(g, m - 1, n - 1);
      ReachGrows(g, Peeled(g, m - 1), Peeled(g, n - 1));
    }
  }

  /** Every node enters at most one level; so there are no more non-empty levels than nodes. */
  lemma LevelsDisjoint(g: Graph, m: nat, n: nat)
    requires m < n
    ensures forall k :: !(k in Level(g, m) && k in Level(g, n))
  {
    PeeledGrows(g, m + 1, n);
  }

  lemma {:induction false} StaysPeeled(g: Graph, m: nat, n: nat)
    requires Level(g, m) == {} && m <= n
    ensures Peeled(g, n) == Peeled(g, m)
    decreases n
  {
    hide Reach;
    EmptyLevel(g, m);
    if m < n {
      StaysPeeled(g, m, n - 1);
    }
  }

  lemma EmptyLevel(g: Graph, m: nat)
    requires Level(g, m) == {}
    ensures Reach(g, Peeled(g, m)) == Peeled(g, m)
  {
    hide Reach;
    PeeledGrows(g, m, m + 1);
    forall k | k in Peeled(g, m + 1)
      ensures k in Peeled(g, m)
    {
      assert k !in Level(g, m);
    }
    assert Peeled(g, m + 1) == Peeled(g, m);
  }

  lemma NoLaterLevel(g: Graph, m: nat, n: nat)
    requires Level(g, m) == {} && m <= n
    ensures Level(g, n) == {} && |Tasks(g, Level(g, n))| == 0
  {
    hide Peeled;
    StaysPeeled(g, m, n);
    StaysPeeled(g, m, n + 1);
    assert Tasks(g, {}) == {};
  }

  /** The first level holds the available tasks, and no other open childless node. */
  lemma FirstLevelIsAvailable(g: Graph)
    requires Linked(g)
    ensures forall k :: k in Tasks(g, Level(g, 0)) <==> IsAvailable(g, k)
  {
    forall k | k in g.nodes
      ensures Degree(g, {}, k) <= 0 <==> DependenciesSatisfied(g, k)
    {
      assert Released(g, {}, k) == {};
      assert forall d :: d in Deps(g, k) <==> d in g.nodes[k].dependencies;
      if Degree(g, {}, k) <= 0 {
        assert Waiting(g, k) == {};
        forall d | d in g.nodes[k].dependencies
          ensures IsClosed(g, d)
        {
          assert d !in Waiting(g, k);
        }
      }
      if DependenciesSatisfied(g, k) {
        assert Waiting(g, k) == {};
      }
    }
    assert Peeled(g, 0) == {} && Peeled(g, 1) == Reach(g, {});
  }

  ghost function Unpeeled(g: Graph, n: nat): nat {
    |g.nodes.Keys - Peeled(g, n)|
  }

  lemma LevelShrinks(g: Graph, n: nat)
    requires Level(g, n) != {}
    ensures Unpeeled(g, n + 1) < Unpeeled(g, n)
  {
    PeeledGrows(g, n, n + 1);
    var k :| k in Level(g, n);
    var after, before := g.nodes.Keys - Peeled(g, n + 1), g.nodes.Keys - Peeled(g, n);
    SubsetSize(after, before);
    assert k in before && k !in after;
  }

  function Width(g: Graph, n: nat): nat {
    |Tasks(g, Level(g, n))|
  }

  /** The widest level, from level n on. */
  function Widest(g: Graph, n: nat): (w: nat)
    decreases Unpeeled(g, n)
  {
    if Level(g, n) == {} then 0 else
      LevelShrinks(g, n);
      var rest := Widest(g, n + 1);
      if Width(g, n) > rest then Width(g, n) else rest
  }

  ghost predicate IsWidth(g: Graph, n: nat, w: nat) {
    exists m: nat :: n <= m && Width(g, m) == w
  }

  /** Widest is the maximum over all levels, and some level is as wide. */
  lemma {:induction false} WidestIsMaximum(g: Graph, n: nat)
    ensures forall m: nat :: n <= m ==> Width(g, m) <= Widest(g, n)
    ensures IsWidth(g, n, Widest(g, n))
    decreases Unpeeled(g, n)
  {
    hide Peeled, Level, Width, Unpeeled;
    if Level(g, n) == {} {
      forall m: nat | n <= m
        ensures Width(g, m) == 0
      {
        NoWidth(g, n, m);
      }
    } else {
      LevelShrinks(g, n);
      WidestIsMaximum(g, n + 1);
    }
  }

  lemma NoWidth(g: Graph, m: nat, n: nat)
    requires Level(g, m) == {} && m <= n
    ensures Width(g, n) == 0
  {
    NoLaterLevel(g, m, n);
  }

  function Limited(widest: nat, maxWorkers: int, cpuCount: int): (limit: int)
    ensures limit >= 1
    ensures maxWorkers > 0 ==> limit <= maxWorkers
    ensures cpuCount > 0 ==> limit <= 2 * cpuCount
    ensures limit == 1 || limit <= widest
    ensures limit >= widest || (maxWorkers > 0 && limit == maxWorkers) || (cpuCount > 0 && limit == 2 * cpuCount)
  {
    var a := if maxWorkers > 0 && widest > maxWorkers then maxWorkers else widest;
    var b := if cpuCount > 0 && a > cpuCount * 2 then cpuCount * 2 else a;
    if b < 1 then 1 else b
  }

  // ---- the loops ----

  lemma ListGrows(s: seq<string>, all: set<string>, k: string)
    requires IsList(s, all) && k !in all
    ensures IsList(s + [k], all + {k})
  {
    assert forall i :: 0 <= i < |s| ==> s[i] in Elements(s);
  }

  lemma ListPart(s: seq<string>, i: nat)
    requires i < |s| && IsList(s, Elements(s))
    ensures Elements(s[..i + 1]) == Elements(s[..i]) + {s[i]} && s[i] !in Elements(s[..i])
  {
    assert s[..i + 1] == s[..i] + [s[i]];
  }

  lemma ListEnd(s: seq<string>)
    ensures Elements(s[..|s|]) == Elements(s) && Elements(s[..0]) == {}
  {
    assert s[..|s|] == s;
  }

  lemma AscendingIsList(s: seq<string>)
    requires Ascending(s)
    ensures IsList(s, Elements(s))
  {
    forall i, j | 0 <= i < j < |s|
      ensures s[i] != s[j]
    {
      LessIrreflexive(s[i]);
    }
  }

  lemma ElementsFront(s: seq<string>)
    requires s != []
    ensures Elements(s) == Elements(s[..|s| - 1]) + {s[|s| - 1]}
  {
    assert s == s[..|s| - 1] + [s[|s| - 1]];
  }

  lemma {:induction false} ListByCount(s: seq<string>)
    ensures |Elements(s)| <= |s|
    ensures IsList(s, Elements(s)) <==> |Elements(s)| == |s|
    decreases |s|
  {
    if s != [] {
      var last := |s| - 1;
      var front := s[..last];
      ListByCount(front);
      ElementsFront(s);
      if IsList(s, Elements(s)) {
        assert s[last] !in Elements(front);
      }
      if |Elements(s)| == |s| {
        assert IsList(front, Elements(front)) && s[last] !in Elements(front);
      }
    }
  }

  lemma SortedIsList(s: seq<string>, all: set<string>)
    requires IsList(s, all)
    ensures IsList(SortedList(s), all)
  {
    hide IsList, SortedList;
    ListIsWhole(s, all);
    ListByCount(s);
    ListByCount(SortedList(s));
    SortedListMembers(s);
    assert Elements(SortedList(s)) == Elements(s);
    assert |multiset(SortedList(s))| == |multiset(s)|;
  }

  lemma ListIsWhole(s: seq<string>, all: set<string>)
    requires IsList(s, all)
    ensures all == Elements(s)
  {
  }

  predicate DegreesFit(g: Graph, done: set<string>, inDegree: map<string, int>) {
    inDegree.Keys == g.nodes.Keys && forall k :: k in g.nodes ==> inDegree[k] == Degree(g, done, k)
  }

  /** The counters at or below zero: nodes seen before, and the next level. */
  predicate NextFits(inDegree: map<string, int>, seen: set<string>, next: seq<string>) {
    IsList(next, Elements(next)) && forall k :: k in inDegree ==>
      (k in seen ==> inDegree[k] <= 0 && k !in next) && (k !in seen ==> (inDegree[k] <= 0 <==> k in next))
  }

  lemma CountUnclosed(g: Graph, k: string, m: nat)
    requires Linked(g) && k in g.nodes && m < |g.nodes[k].dependencies|
    ensures var deps := g.nodes[k].dependencies;
      |Waiting(g, k) * Elements(deps[..m + 1])| ==
        |Waiting(g, k) * Elements(deps[..m])| + if IsClosed(g, deps[m]) then 0 else 1
  {
    var deps := g.nodes[k].dependencies;
    AscendingIsList(deps);
    ListPart(deps, m);
    var w, before := Waiting(g, k), Elements(deps[..m]);
    assert deps[m] in g.nodes;
    if IsClosed(g, deps[m]) {
      assert w * (before + {deps[m]}) == w * before;
    } else {
      assert deps[m] in w;
      assert w * (before + {deps[m]}) == (w * before) + {deps[m]};
    }
  }

  method InitialDegree(g: Graph, id: string) returns (deps: nat)
    requires Linked(g) && id in g.nodes
    ensures deps == Initial(g, id)
  {
    hide Ascending, Less, Linked;
    deps := 0;
    if !MissesNone(g, id) {
      deps := deps + 1;
    }
    var dependencies := g.nodes[id].dependencies;
    ListEnd(dependencies);
    assert Waiting(g, id) * {} == {};
    var m := 0;
    while m < |dependencies|
      invariant 0 <= m <= |dependencies|
      invariant deps == (if MissesNone(g, id) then 0 else 1) + |Waiting(g, id) * Elements(dependencies[..m])|
    {
      CountUnclosed(g, id, m);
      if dependencies[m] in g.nodes {
        if g.nodes[dependencies[m]].status != Closed {
          deps := deps + 1;
        }
      } else {
        DependencyKnown(g, id, m);
      }
      m := m + 1;
    }
    assert Waiting(g, id) * Elements(dependencies) == Waiting(g, id);
  }

  lemma DependencyKnown(g: Graph, id: string, m: nat)
    requires Linked(g) && id in g.nodes && m < |g.nodes[id].dependencies|
    ensures g.nodes[id].dependencies[m] in g.nodes
  {
  }

  predicate InitialFits(g: Graph, inDegree: map<string, int>, left: set<string>) {
    inDegree.Keys == g.nodes.Keys - left && forall k :: k in inDegree ==> k in g.nodes && inDegree[k] == Initial(g, k)
  }

  method InitialDegrees(g: Graph) returns (inDegree: map<string, int>, level: seq<string>)
    requires Linked(g)
    ensures DegreesFit(g, {}, inDegree) && NextFits(inDegree, {}, level)
    ensures forall k :: k in level ==> k in g.nodes
  {
    hide Linked, Initial, Waiting, Released, Elements;
    inDegree, level := map[], [];
    var left := g.nodes.Keys;
    while left != {}
      invariant forall k :: k in left ==> k in g.nodes
      invariant InitialFits(g, inDegree, left)
      invariant NextFits(inDegree, {}, level)
      invariant forall k :: k in level ==> k in inDegree
      decreases |left|
    {
      var id :| id in left;
      left := left - {id};
      var deps := InitialDegree(g, id);
      NextDegree(inDegree, level, id, deps);
      inDegree := inDegree[id := deps];
      if deps == 0 {
        level := level + [id];
      }
    }
    InitialIsDegree(g);
  }

  lemma NextDegree(inDegree: map<string, int>, level: seq<string>, id: string, deps: nat)
    requires id !in inDegree && NextFits(inDegree, {}, level) && forall k :: k in level ==> k in inDegree
    ensures deps == 0 ==> NextFits(inDegree[id := deps], {}, level + [id])
    ensures deps > 0 ==> NextFits(inDegree[id := deps], {}, level)
  {
    ListGrows(level, Elements(level), id);
    assert forall k :: k in level + [id] <==> k in level || k == id;
  }

  lemma InitialIsDegree(g: Graph)
    ensures forall k :: k in g.nodes ==> Degree(g, {}, k) == Initial(g, k)
  {
    forall k | k in g.nodes
      ensures Released(g, {}, k) == {}
    {
    }
  }

  lemma ReleasedOne(g: Graph, done: set<string>, id: string)
    requires Linked(g) && id in g.nodes && id !in done
    ensures forall k :: k in g.nodes ==>
      Degree(g, done + {id}, k) == Degree(g, done, k) - if Releases(g, id) && k in g.nodes[id].dependents then 1 else 0
  {
    hide Linked, Initial, Released, Releases;
    forall k | k in g.nodes
      ensures |Released(g, done + {id}, k)| ==
        |Released(g, done, k)| + if Releases(g, id) && k in g.nodes[id].dependents then 1 else 0
    {
      Mirrored(g, id, k);
      ReleasedMore(g, done, id, k);
    }
  }

  lemma Mirrored(g: Graph, id: string, k: string)
    requires Linked(g) && id in g.nodes && k in g.nodes
    ensures k in g.nodes[id].dependents <==> id in Deps(g, k)
  {
  }

  lemma ReleasedMore(g: Graph, done: set<string>, id: string, k: string)
    requires id !in done && k in g.nodes
    ensures |Released(g, done + {id}, k)| ==
        |Released(g, done, k)| + if Releases(g, id) && id in Deps(g, k) then 1 else 0
  {
    hide Deps, Releases;
    if Releases(g, id) && id in Deps(g, k) {
      assert Released(g, done + {id}, k) == Released(g, done, k) + {id};
    } else {
      assert Released(g, done + {id}, k) == Released(g, done, k);
    }
  }

  predicate Dropped(before: map<string, int>, now: map<string, int>, targets: set<string>) {
    now.Keys == before.Keys && forall k :: k in now ==> now[k] == before[k] - if k in targets then 1 else 0
  }

  lemma DropOne(before: map<string, int>, now: map<string, int>, targets: set<string>, k: string, seen: set<string>,
                next: seq<string>)
    requires Dropped(before, now, targets) && k in now && k !in targets && NextFits(now, seen, next)
    ensures Dropped(before, now[k := now[k] - 1], targets + {k})
    ensures now[k] - 1 == 0 ==> NextFits(now[k := now[k] - 1], seen, next + [k])
    ensures now[k] - 1 != 0 ==> NextFits(now[k := now[k] - 1], seen, next)
  {
    assert forall t :: t in next + [k] <==> t in next || t == k;
    if now[k] - 1 == 0 {
      ListGrows(next, Elements(next), k);
      assert Elements(next + [k]) == Elements(next) + {k};
    }
  }

  /** Peeling one node counts each of its dependents down by one. */
  method Release(g: Graph, id: string, inDegree0: map<string, int>, next0: seq<string>, ghost done: set<string>,
                 ghost seen: set<string>)
    returns (inDegree: map<string, int>, next: seq<string>)
    requires Linked(g) && Releases(g, id) && id !in done
    requires DegreesFit(g, done, inDegree0) && NextFits(inDegree0, seen, next0)
    requires forall k :: k in next0 ==> k in g.nodes
    ensures DegreesFit(g, done + {id}, inDegree) && NextFits(inDegree, seen, next)
    ensures forall k :: k in next ==> k in g.nodes
  {
    hide Degree, Linked, NextFits, IsList, Elements, Ascending;
    inDegree, next := inDegree0, next0;
    var dependents := g.nodes[id].dependents;
    ReleasedOne(g, done, id);
    DependentsList(g, id);
    ListEnd(dependents);
    var m := 0;
    while m < |dependents|
      invariant 0 <= m <= |dependents|
      invariant Dropped(inDegree0, inDegree, Elements(dependents[..m]))
      invariant NextFits(inDegree, seen, next)
      invariant forall k :: k in next ==> k in g.nodes
    {
      var t := dependents[m];
      ListPart(dependents, m);
      if t in inDegree {
        DropOne(inDegree0, inDegree, Elements(dependents[..m]), t, seen, next);
        inDegree := inDegree[t := inDegree[t] - 1];
        if inDegree[t] == 0 {
          next := next + [t];
        }
      }
      m := m + 1;
    }
  }

  lemma DependentsList(g: Graph, id: string)
    requires Linked(g) && id in g.nodes
    ensures IsList(g.nodes[id].dependents, Elements(g.nodes[id].dependents))
    ensures forall t :: t in g.nodes[id].dependents ==> t in g.nodes
    ensures forall t :: t in Elements(g.nodes[id].dependents) <==> t in g.nodes[id].dependents
  {
    AscendingIsList(g.nodes[id].dependents);
  }

  lemma CountTask(g: Graph, level: seq<string>, i: nat)
    requires i < |level| && IsList(level, Elements(level)) && level[i] in g.nodes
    ensures |Tasks(g, Elements(level[..i + 1]))| == |Tasks(g, Elements(level[..i]))| +
      if g.nodes[level[i]].status == Open && !IsContainer(g.nodes[level[i]]) then 1 else 0
  {
    ListPart(level, i);
    var before := Elements(level[..i]);
    if g.nodes[level[i]].status == Open && !IsContainer(g.nodes[level[i]]) {
      assert Tasks(g, before + {level[i]}) == Tasks(g, before) + {level[i]};
    } else {
      assert Tasks(g, before + {level[i]}) == Tasks(g, before);
    }
  }

  lemma BlockedReleasesNothing(g: Graph, done: set<string>, id: string, inDegree: map<string, int>)
    requires Linked(g) && id in g.nodes && !Releases(g, id) && id !in done && DegreesFit(g, done, inDegree)
    ensures DegreesFit(g, done + {id}, inDegree)
  {
    ReleasedOne(g, done, id);
  }

  lemma AddPart(done: set<string>, level: seq<string>, i: nat)
    requires i < |level| && IsList(level, Elements(level)) && forall k :: k in level ==> k !in done
    ensures done + Elements(level[..i + 1]) == done + Elements(level[..i]) + {level[i]}
    ensures level[i] !in done + Elements(level[..i])
  {
    ListPart(level, i);
  }

  /** One turn of the outer loop: peel a level, collect the next. */
  method PeelLevel(g: Graph, level: seq<string>, inDegree0: map<string, int>, ghost done: set<string>)
    returns (inDegree: map<string, int>, next: seq<string>, openAtLevel: nat)
    requires Linked(g) && DegreesFit(g, done, inDegree0) && NextFits(inDegree0, done, level)
    requires forall k :: k in level ==> k in g.nodes
    ensures DegreesFit(g, done + Elements(level), inDegree)
    ensures NextFits(inDegree, done + Elements(level), next)
    ensures forall k :: k in next ==> k in g.nodes
    ensures openAtLevel == |Tasks(g, Elements(level))|
  {
    hide Degree, Linked, DegreesFit, NextFits, Elements, Tasks;
    inDegree, next, openAtLevel := inDegree0, [], 0;
    ghost var seen := done + Elements(level);
    LevelStarts(g, level, inDegree, done);
    var i := 0;
    while i < |level|
      invariant 0 <= i <= |level|
      invariant DegreesFit(g, done + Elements(level[..i]), inDegree)
      invariant NextFits(inDegree, seen, next)
      invariant forall k :: k in next ==> k in g.nodes
      invariant openAtLevel == |Tasks(g, Elements(level[..i]))|
    {
      var id := level[i];
      var node := g.nodes[id];
      AddPart(done, level, i);
      CountTask(g, level, i);
      if node.status == Open && !IsContainer(node) {
        openAtLevel := openAtLevel + 1;
      }
      if node.status != Open && node.status != Closed {
        BlockedReleasesNothing(g, done + Elements(level[..i]), id, inDegree);
      } else {
        inDegree, next := Release(g, id, inDegree, next, done + Elements(level[..i]), seen);
      }
      i := i + 1;
    }
    ListEnd(level);
  }

  lemma LevelStarts(g: Graph, level: seq<string>, inDegree: map<string, int>, done: set<string>)
    requires DegreesFit(g, done, inDegree) && NextFits(inDegree, done, level) && forall k :: k in level ==> k in g.nodes
    ensures IsList(level, Elements(level)) && forall k :: k in level ==> k !in done
    ensures done + Elements(level[..0]) == done && Tasks(g, Elements(level[..0])) == {}
    ensures NextFits(inDegree, done + Elements(level), [])
  {
    ListEnd(level);
  }

  /** The lists and counters hold exactly the next level. */
  lemma LevelIs(g: Graph, n: nat, inDegree: map<string, int>, level: seq<string>)
    requires DegreesFit(g, Peeled(g, n), inDegree) && NextFits(inDegree, Peeled(g, n), level)
    requires forall k :: k in level ==> k in g.nodes
    ensures Elements(level) == Level(g, n) && Peeled(g, n) + Elements(level) == Peeled(g, n + 1)
  {
    hide Degree;
    PeeledGrows(g, n, n + 1);
    PeeledKnown(g, n);
    forall k
      ensures k in level <==> k in Level(g, n)
    {
    }
  }

  lemma PeeledKnown(g: Graph, n: nat)
    ensures forall k :: k in Peeled(g, n) ==> k in g.nodes
  {
  }

  lemma SortedNext(inDegree: map<string, int>, seen: set<string>, next: seq<string>)
    requires NextFits(inDegree, seen, next)
    ensures NextFits(inDegree, seen, SortedList(next))
    ensures forall k :: k in SortedList(next) <==> k in next
  {
    SortedIsList(next, Elements(next));
    SortedListMembers(next);
  }

  method CalculateConcurrency(g: Graph, maxWorkers: int, cpuCount: int) returns (limit: int)
    requires Linked(g)
    ensures limit == if g.nodes == map[] then 0 else Limited(Widest(g, 0), maxWorkers, cpuCount)
  {
    hide Linked, DegreesFit, NextFits, Elements, SortedList, Peeled, Level, Tasks;
    if g.nodes == map[] {
      return 0;
    }
    var inDegree, level := InitialDegrees(g);
    SortedNext(inDegree, {}, level);
    level := SortedList(level);
    ghost var n: nat := 0;
    NothingPeeled(g);
    var maxParallel: nat := 0;
    LevelIs(g, 0, inDegree, level);
    while |level| > 0
      invariant DegreesFit(g, Peeled(g, n), inDegree) && NextFits(inDegree, Peeled(g, n), level)
      invariant forall k :: k in level ==> k in g.nodes
      invariant Elements(level) == Level(g, n)
      invariant Widest(g, 0) == if maxParallel > Widest(g, n) then maxParallel else Widest(g, n)
      decreases Unpeeled(g, n)
    {
      LevelIs(g, n, inDegree, level);
      NonEmpty(level);
      LevelShrinks(g, n);
      var next, openAtLevel;
      inDegree, next, openAtLevel := PeelLevel(g, level, inDegree, Peeled(g, n));
      if openAtLevel > maxParallel {
        maxParallel := openAtLevel;
      }
      SortedNext(inDegree, Peeled(g, n + 1), next);
      level := SortedList(next);
      n := n + 1;
      LevelIs(g, n, inDegree, level);
    }
    NonEmpty(level);
    limit := maxParallel;
    if maxWorkers > 0 && limit > maxWorkers {
      limit := maxWorkers;
    }
    if cpuCount > 0 {
      var cpuLimit := cpuCount * 2;
      if limit > cpuLimit {
        limit := cpuLimit;
      }
    }
    if limit < 1 {
      return 1;
    }
  }

  lemma NonEmpty(level: seq<string>)
    ensures level == [] <==> Elements(level) == {}
  {
    assert level != [] ==> level[0] in Elements(level);
  }

  lemma NothingPeeled(g: Graph)
    ensures Peeled(g, 0) == {}
  {
  }

  /** What a caller may rely on: at least the tasks available now fit, up to the caps set. */
  lemma AtLeastAvailable(g: Graph, available: set<string>, maxWorkers: int, cpuCount: int)
    requires Linked(g) && forall k :: k in available <==> IsAvailable(g, k)
    ensures var limit := Limited(Widest(g, 0), maxWorkers, cpuCount);
      limit >= |available| || (maxWorkers > 0 && limit == maxWorkers) || (cpuCount > 0 && limit == 2 * cpuCount)
  {
    FirstLevelIsAvailable(g);
    assert available == Tasks(g, Level(g, 0));
    WidestIsMaximum(g, 0);
    assert Width(g, 0) <= Widest(g, 0);
  }

  // ---- when a level is safe to run side by side ----

  /** Unclosed dependencies that have not yet released k when the first n levels are peeled. */
  function Outstanding(g: Graph, n: nat, k: string): set<string>
    requires k in g.nodes
  {
    set d | d in Waiting(g, k) && !(d in Peeled(g, n) && Releases(g, d))
  }

  /** Closed dependencies among the first n levels: they were never counted, but are counted down. */
  function ClosedPeeled(g: Graph, n: nat, k: string): set<string>
    requires k in g.nodes
  {
    set d | d in Deps(g, k) && d in Peeled(g, n) && IsClosed(g, d)
  }

  /** k is counted only after every dependency that was not closed from the start. */
  ghost predicate ComesAfter(g: Graph, k: string)
    requires k in g.nodes
  {
    forall n: nat :: k in Peeled(g, n + 1) ==> Outstanding(g, n, k) == {}
  }

  function Missing(g: Graph, k: string): nat
    requires k in g.nodes
  {
    if MissesNone(g, k) then 0 else 1
  }

  lemma EntersIff(g: Graph, n: nat, k: string)
    requires k in g.nodes
    ensures k in Peeled(g, n + 1) <==> |Outstanding(g, n, k)| + Missing(g, k) <= |ClosedPeeled(g, n, k)|
  {
    hide MissesNone, Deps;
    ReleasedSplit(g, n, k);
  }

  lemma ReleasedSplit(g: Graph, n: nat, k: string)
    requires k in g.nodes
    ensures |Released(g, Peeled(g, n), k)| + |Outstanding(g, n, k)| == |ClosedPeeled(g, n, k)| + |Waiting(g, k)|
  {
    hide Peeled;
    var out, waiting := Outstanding(g, n, k), Waiting(g, k);
    assert Released(g, Peeled(g, n), k) == ClosedPeeled(g, n, k) + (waiting - out);
    assert ClosedPeeled(g, n, k) !! (waiting - out);
    assert out + (waiting - out) == waiting;
  }

  /** The exact condition: while something is outstanding, it is more than the closed
      dependencies can make up for. */
  lemma ComesAfterIff(g: Graph, k: string)
    requires k in g.nodes
    ensures ComesAfter(g, k) <==> forall n: nat ::
      Outstanding(g, n, k) == {} || |Outstanding(g, n, k)| + Missing(g, k) > |ClosedPeeled(g, n, k)|
  {
    hide Outstanding, ClosedPeeled, Missing, Peeled;
    forall n: nat
      ensures k in Peeled(g, n + 1) <==> |Outstanding(g, n, k)| + Missing(g, k) <= |ClosedPeeled(g, n, k)|
    {
      EntersIff(g, n, k);
    }
  }

  function ClosedDeps(g: Graph, k: string): set<string>
    requires k in g.nodes
  {
    set d | d in Deps(g, k) && IsClosed(g, d)
  }

  /** The closed dependencies of k depend on closed tasks only, with nothing missing. */
  predicate Settled(g: Graph, k: string)
    requires k in g.nodes
  {
    forall d :: d in ClosedDeps(g, k) && d in g.nodes ==> MissesNone(g, d) && Waiting(g, d) == {}
  }

  lemma SettledPeeled(g: Graph, n: nat, k: string)
    requires Linked(g) && k in g.nodes && Settled(g, k) && n > 0
    ensures ClosedPeeled(g, n, k) == ClosedDeps(g, k)
  {
    PeeledGrows(g, 1, n);
    InitialIsDegree(g);
    forall d | d in ClosedDeps(g, k)
      ensures d in Peeled(g, 1)
    {
      assert Degree(g, Peeled(g, 0), d) == Initial(g, d) == 0;
    }
  }

  lemma OutstandingShrinks(g: Graph, m: nat, n: nat, k: string)
    requires k in g.nodes && m <= n
    ensures |Outstanding(g, n, k)| <= |Outstanding(g, m, k)|
  {
    PeeledGrows(g, m, n);
    SubsetSize(Outstanding(g, n, k), Outstanding(g, m, k));
  }

  function Deepest(g: Graph, last: nat, k: string): set<string>
    requires k in g.nodes
  {
    Waiting(g, k) * Level(g, last)
  }

  /** The same, told by levels: let all unclosed dependencies lie in levels 0 to last, some of
      them in level last. Then k comes after them exactly when it is the first level, or when
      more of them lie in level last than k has closed dependencies. */
  lemma ComesAfterDeepestIff(g: Graph, last: nat, k: string)
    requires Linked(g) && k in g.nodes && Settled(g, k) && MissesNone(g, k) && Deepest(g, last, k) != {}
    requires forall d :: d in Waiting(g, k) ==> d in Peeled(g, last + 1) && Releases(g, d)
    ensures ComesAfter(g, k) <==> last == 0 || |Deepest(g, last, k)| > |ClosedDeps(g, k)|
  {
    hide Peeled, Linked, Waiting, Settled, MissesNone, ClosedDeps, ClosedPeeled;
    var c := |ClosedDeps(g, k)|;
    PeeledGrows(g, last, last + 1);
    assert Outstanding(g, last, k) == Deepest(g, last, k);
    assert Outstanding(g, last + 1, k) == {};
    NothingPeeled(g);
    ComesAfterIff(g, k);
    if last > 0 {
      SettledPeeled(g, last, k);
    }
    if last == 0 || |Deepest(g, last, k)| > c {
      forall n: nat
        ensures Outstanding(g, n, k) == {} || |Outstanding(g, n, k)| > |ClosedPeeled(g, n, k)|
      {
        BeforeDeepest(g, last, n, k);
      }
    }
  }

  lemma BeforeDeepest(g: Graph, last: nat, n: nat, k: string)
    requires Linked(g) && k in g.nodes && Settled(g, k)
    requires Outstanding(g, last + 1, k) == {} && (last == 0 || |Outstanding(g, last, k)| > |ClosedDeps(g, k)|)
    ensures Outstanding(g, n, k) == {} || |Outstanding(g, n, k)| > |ClosedPeeled(g, n, k)|
  {
    hide Linked, Settled, Outstanding;
    if n > last {
      OutstandingShrinks(g, last + 1, n, k);
    } else if n == 0 {
      NothingPeeled(g);
      assert ClosedPeeled(g, 0, k) == {};
    } else {
      OutstandingShrinks(g, n, last, k);
      SettledPeeled(g, n, k);
    }
  }

  /** Closed tasks depend on closed tasks only. */
  predicate ClosedDownward(g: Graph) {
    forall k :: k in g.nodes && IsClosed(g, k) ==> forall d :: d in g.nodes[k].dependencies ==> IsClosed(g, d)
  }

  ghost predicate AllComeAfter(g: Graph) {
    forall k :: k in g.nodes ==> ComesAfter(g, k)
  }

  /** Down an unclosed path the levels strictly fall. */
  lemma {:induction false} PathLeavesLevel(g: Graph, n: nat, p: seq<string>)
    requires Linked(g) && ClosedDownward(g) && AllComeAfter(g) && IsPath(DependencyLinks(g), p) && |p| >= 2
    requires p[0] in Peeled(g, n) && p[0] in g.nodes && p[|p| - 1] in g.nodes && !IsClosed(g, p[|p| - 1])
    ensures n > 0 && p[|p| - 1] in Peeled(g, n - 1)
    decreases |p|
  {
    hide Linked, ClosedDownward, AllComeAfter, IsPath, Peeled, IsClosed;
    UnclosedStep(g, p);
    DependencyFirst(g, n, p[0], p[1]);
    if |p| > 2 {
      var rest := p[1..];
      PartOfPath(DependencyLinks(g), p, 1, |p|);
      assert p[1..|p|] == rest;
      PathLeavesLevel(g, n - 1, rest);
      PeeledGrows(g, n - 2, n - 1);
    }
  }

  lemma DependencyFirst(g: Graph, n: nat, k: string, d: string)
    requires Linked(g) && AllComeAfter(g) && k in g.nodes && k in Peeled(g, n)
    requires d in g.nodes[k].dependencies && !IsClosed(g, d)
    ensures n > 0 && d in Peeled(g, n - 1)
  {
    assert ComesAfter(g, k);
    assert d in Waiting(g, k);
    assert d in Outstanding(g, n - 1, k) <==> !(d in Peeled(g, n - 1) && Releases(g, d));
  }

  lemma {:induction false} UnclosedStep(g: Graph, p: seq<string>)
    requires Linked(g) && ClosedDownward(g) && IsPath(DependencyLinks(g), p) && |p| >= 2
    requires p[0] in g.nodes && p[|p| - 1] in g.nodes && !IsClosed(g, p[|p| - 1])
    ensures p[1] in g.nodes && p[1] in g.nodes[p[0]].dependencies && !IsClosed(g, p[0]) && !IsClosed(g, p[1])
    decreases |p|
  {
    var links := DependencyLinks(g);
    assert p[0] in links && p[1] in links[p[0]];
    if |p| > 2 {
      PartOfPath(links, p, 1, |p|);
      UnclosedStep(g, p[1..]);
    }
    assert !IsClosed(g, p[1]);
  }

  /** No two tasks counted in one level depend on one another, however indirectly. */
  lemma LevelIsIndependent(g: Graph, n: nat, p: seq<string>)
    requires Linked(g) && ClosedDownward(g) && AllComeAfter(g) && IsPath(DependencyLinks(g), p) && |p| >= 2
    requires p[0] in Tasks(g, Level(g, n))
    ensures p[|p| - 1] !in Tasks(g, Level(g, n))
  {
    if p[|p| - 1] in Tasks(g, Level(g, n)) {
      PathLeavesLevel(g, n + 1, p);
    }
  }

  /** No task mixes closed with unclosed dependencies. */
  predicate Unmixed(g: Graph) {
    forall k :: k in g.nodes ==>
      forall d, e :: d in g.nodes[k].dependencies && e in g.nodes[k].dependencies && IsClosed(g, d) ==> IsClosed(g, e)
  }

  lemma UnmixedComeAfter(g: Graph)
    requires Linked(g) && Unmixed(g)
    ensures AllComeAfter(g)
  {
    forall k | k in g.nodes
      ensures ComesAfter(g, k)
    {
      forall n: nat
        ensures Outstanding(g, n, k) == {} || |Outstanding(g, n, k)| + Missing(g, k) > |ClosedPeeled(g, n, k)|
      {
        OneKindOnly(g, n, k);
      }
      ComesAfterIff(g, k);
    }
  }

  lemma OneKindOnly(g: Graph, n: nat, k: string)
    requires Linked(g) && Unmixed(g) && k in g.nodes
    ensures Outstanding(g, n, k) == {} || ClosedPeeled(g, n, k) == {}
  {
    assert forall d :: d in Outstanding(g, n, k) ==> d in g.nodes[k].dependencies && !IsClosed(g, d);
    assert forall d :: d in ClosedPeeled(g, n, k) ==> d in g.nodes[k].dependencies && IsClosed(g, d);
  }

  lemma NothingClosedIsUnmixed(g: Graph)
    requires forall k :: k in g.nodes ==> g.nodes[k].status != Closed
    ensures Unmixed(g) && ClosedDownward(g)
  {
  }

  // ---- a graph where it is not ----

  function PlainNode(status: TaskStatus, dependencies: seq<string>, dependents: seq<string>): Node {
    Node(status, 0, None, [], dependencies, dependents, 0)
  }

  /** A is closed; X waits for Y; D waits for A and X. */
  function MixedGraph(): Graph {
    Graph("Y", map[
      "A" := PlainNode(Closed, [], ["D"]),
      "D" := PlainNode(Open, ["A", "X"], []),
      "X" := PlainNode(Open, ["Y"], ["D"]),
      "Y" := PlainNode(Open, [], ["X"])], map[])
  }

  lemma MixedDegrees(done: set<string>)
    requires done == {} || done == {"A", "Y"}
    ensures var g := MixedGraph();
      Degree(g, done, "A") == 0 && Degree(g, done, "Y") == 0 &&
      Degree(g, done, "X") == (if "Y" in done then 0 else 1) && Degree(g, done, "D") == if "A" in done then 0 else 1
  {
    var g := MixedGraph();
    assert g.nodes["D"].dependencies == ["A", "X"] && g.nodes["X"].dependencies == ["Y"];
    assert Deps(g, "A") == {} && Deps(g, "Y") == {} && Deps(g, "X") == {"Y"} && Deps(g, "D") == {"A", "X"};
    assert Waiting(g, "X") == {"Y"} && Waiting(g, "D") == {"X"} && Waiting(g, "A") == {} && Waiting(g, "Y") == {};
    assert Released(g, done, "A") == {} && Released(g, done, "Y") == {};
    assert Released(g, done, "X") == if "Y" in done then {"Y"} else {};
    assert Released(g, done, "D") == if "A" in done then {"A"} else {};
  }

  predicate NodeLinked(g: Graph, k: string) {
    k in g.nodes && Ascending(g.nodes[k].dependencies) && Ascending(g.nodes[k].dependents) &&
    (forall d :: d in g.nodes[k].dependencies ==> d in g.nodes && k in g.nodes[d].dependents) &&
    forall t :: t in g.nodes[k].dependents ==> t in g.nodes && k in g.nodes[t].dependencies
  }

  lemma LinkedNodeByNode(g: Graph)
    requires forall k :: k in g.nodes ==> NodeLinked(g, k)
    ensures Linked(g)
  {
  }

  lemma MixedGraphIsLinked()
    ensures Linked(MixedGraph())
  {
    hide Ascending, Less, Linked;
    var g := MixedGraph();
    ShortAscending();
    assert ["A", "X"][1] == "X";
    assert NodeLinked(g, "A");
    assert NodeLinked(g, "D");
    assert NodeLinked(g, "X");
    assert NodeLinked(g, "Y");
    assert g.nodes.Keys == {"A", "D", "X", "Y"};
    LinkedNodeByNode(g);
  }

  lemma ShortAscending()
    ensures Ascending([]) && Ascending(["A", "X"]) && forall k: string :: Ascending([k])
  {
    assert Less("A", "X");
  }

  lemma MixedLevels()
    ensures var g := MixedGraph(); "D" in Level(g, 1) && "X" in Level(g, 1)
  {
    hide Degree, Linked;
    var g := MixedGraph();
    MixedDegrees({});
    MixedDegrees({"A", "Y"});
    assert Peeled(g, 0) == {};
    assert Peeled(g, 1) == Reach(g, {}) == {"A", "Y"};
    assert Peeled(g, 2) == Reach(g, {"A", "Y"});
  }

  /** Closed dependencies are not counted but still counted down: D meets its own
      dependency X in the second level. */
  lemma ClosedDependencyMixesLevels()
    ensures var g := MixedGraph();
      Linked(g) && "X" in g.nodes["D"].dependencies && "D" in Tasks(g, Level(g, 1)) && "X" in Tasks(g, Level(g, 1))
  {
    hide Degree, Linked, Level;
    MixedGraphIsLinked();
    MixedLevels();
    assert ["A", "X"][1] == "X";
  }

  // ---- every node gets its level ----

  /** Without cycles, missing dependencies or other statuses the peeling reaches every node. */
  lemma AllPeeled(g: Graph, n: nat)
    requires Linked(g) && Acyclic(DependencyLinks(g)) && Level(g, n) == {}
    requires forall k :: k in g.nodes ==> Releases(g, k) && MissesNone(g, k)
    ensures Peeled(g, n) == g.nodes.Keys
  {
    hide Linked, Acyclic, LeadsInto, Level, Reach, Peeled, Releases, MissesNone, DependencyLinks;
    var done := Peeled(g, n);
    EmptyLevel(g, n);
    PeeledKnown(g, n);
    LinksOfAll(g);
    var rest := g.nodes.Keys - done;
    if rest == {} {
      forall k | k in g.nodes
        ensures k in done
      {
        assert k !in rest;
      }
    } else {
      AcyclicHasSink(DependencyLinks(g), rest);
      var k :| k in rest && !LeadsInto(DependencyLinks(g), k, rest);
      SinkReached(g, done, k);
      assert false;
    }
  }

  lemma LinksOfAll(g: Graph)
    ensures DependencyLinks(g).Keys == g.nodes.Keys
  {
  }

  lemma SinkReached(g: Graph, done: set<string>, k: string)
    requires Linked(g) && k in g.nodes && !LeadsInto(DependencyLinks(g), k, g.nodes.Keys - done)
    requires forall d :: d in g.nodes ==> Releases(g, d) && MissesNone(g, d)
    ensures k in Reach(g, done)
  {
    forall d | d in Deps(g, k)
      ensures d in done
    {
      assert d in DependencyLinks(g)[k];
    }
    assert Released(g, done, k) == Deps(g, k);
    SubsetSize(Waiting(g, k), Released(g, done, k));
  }
}
