/** The two depth-first searches of the task engine (internal/engine/engine.go): the
    search for a dependency cycle, and the depths along the parent chains. */
module CycleSearch {
  import opened Ordering

  /** For every node the nodes it leads to: its dependencies, or its parent if any. */
  type Links = map<string, seq<string>>

  predicate ClosedLinks(g: Links) {
    forall k :: k in g ==> forall d :: d in g[k] ==> d in g
  }

  predicate IsPath(g: Links, p: seq<string>) {
    forall i :: 0 <= i < |p| - 1 ==> p[i] in g && p[i + 1] in g[p[i]]
  }

  /** A closed path: its last node is its first. */
  predicate IsCycle(g: Links, c: seq<string>) {
    |c| >= 2 && c[0] == c[|c| - 1] && IsPath(g, c)
  }

  /** Every link of a ranked node leads to a node of lower rank. */
  predicate Ranked(g: Links, rank: map<string, nat>) {
    forall k :: k in rank ==> k in g && forall d :: d in g[k] ==> d in rank && rank[d] < rank[k]
  }

  ghost predicate Acyclic(g: Links) {
    forall c :: !IsCycle(g, c)
  }

  lemma {:induction false} RankFalls(g: Links, rank: map<string, nat>, p: seq<string>, i: nat)
    requires Ranked(g, rank) && rank.Keys == g.Keys && IsPath(g, p) && i < |p| && p[0] in g
    ensures p[i] in rank && rank[p[i]] + i <= rank[p[0]]
    decreases i
  {
    if i > 0 {
      RankFalls(g, rank, p, i - 1);
      assert p[i - 1] in g && p[i - 1 + 1] in g[p[i - 1]];
    }
  }

  lemma RankedIsAcyclic(g: Links, rank: map<string, nat>)
    requires Ranked(g, rank) && rank.Keys == g.Keys
    ensures Acyclic(g)
  {
    forall c | IsCycle(g, c)
      ensures false
    {
      assert c[0] in g && c[0 + 1] in g[c[0]];
      RankFalls(g, rank, c, |c| - 1);
    }
  }

  datatype Color = Unvisited | Visiting | Visited

  /** The stack holds the nodes under way, each where its index says, and is a path. */
  ghost predicate StackFits(g: Links, state: map<string, Color>, stack: seq<string>, index: map<string, nat>) {
    IsPath(g, stack) &&
    (forall i :: 0 <= i < |stack| ==> stack[i] in index && index[stack[i]] == i) &&
    (forall k :: k in index ==> index[k] < |stack| && stack[index[k]] == k && k in state && state[k] == Visiting) &&
    (forall k :: k in state && state[k] == Visiting ==> k in index)
  }

  /** The finished nodes are ranked, below the number of finished nodes. */
  ghost predicate RanksFit(g: Links, state: map<string, Color>, rank: map<string, nat>) {
    Ranked(g, rank) &&
    (forall k :: k in rank ==> rank[k] < |rank| && k in state && state[k] == Visited) &&
    (forall k :: k in state && state[k] == Visited ==> k in rank)
  }

  lemma PushFits(g: Links, state: map<string, Color>, stack: seq<string>, index: map<string, nat>, t: string)
    requires StackFits(g, state, stack, index) && t in g && t in state && state[t] == Unvisited
    requires stack != [] ==> stack[|stack| - 1] in g && t in g[stack[|stack| - 1]]
    ensures StackFits(g, state[t := Visiting], stack + [t], index[t := |stack|])
  {
    assert t !in index;
  }

  lemma PopFits(g: Links, state: map<string, Color>, stack: seq<string>, index: map<string, nat>, t: string)
    requires StackFits(g, state, stack, index) && stack != [] && stack[|stack| - 1] == t
    ensures StackFits(g, state[t := Visited], stack[..|stack| - 1], index - {t}) && state[t] == Visiting
  {
    assert index[t] == |stack| - 1;
  }

  lemma EnterRanks(g: Links, state: map<string, Color>, rank: map<string, nat>, t: string)
    requires RanksFit(g, state, rank) && t in state && state[t] == Unvisited
    ensures RanksFit(g, state[t := Visiting], rank)
  {
  }

  lemma FinishRanks(g: Links, state: map<string, Color>, rank: map<string, nat>, t: string)
    requires RanksFit(g, state, rank) && t in g && t in state && state[t] == Visiting
    requires forall d :: d in g[t] ==> d in state && state[d] == Visited
    ensures RanksFit(g, state[t := Visited], rank[t := |rank|])
  {
    assert t !in rank;
    assert |rank[t := |rank|]| == |rank| + 1;
  }

  /** left counts the nodes the search has not reached. */
  ghost predicate UnseenFits(state: map<string, Color>, unseen: set<string>, left: nat) {
    left == |unseen| && (forall k :: k in unseen ==> k in state && state[k] == Unvisited) &&
    (forall k :: k in state && state[k] == Unvisited ==> k in unseen)
  }

  lemma StaysUnseen(state: map<string, Color>, unseen: set<string>, left: nat, t: string)
    requires UnseenFits(state, unseen, left) && t in state
    ensures state[t] == Unvisited ==> left > 0 && UnseenFits(state[t := Visiting], unseen - {t}, left - 1)
    ensures state[t] == Visiting ==> UnseenFits(state[t := Visited], unseen, left)
  {
  }

  class Finder {
    const g: Links
    var state: map<string, Color>
    var stack: seq<string>
    var stackIndex: map<string, nat>
    var cycle: seq<string>
    ghost var rank: map<string, nat>
    ghost var unseen: set<string>
    ghost var left: nat

    ghost predicate Valid()
      reads this
    {
      ClosedLinks(g) && state.Keys == g.Keys && StackFits(g, state, stack, stackIndex) && RanksFit(g, state, rank) &&
      UnseenFits(state, unseen, left)
    }

    constructor (g: Links)
      requires ClosedLinks(g)
      ensures Valid() && this.g == g && stack == [] && cycle == []
    {
      this.g := g;
      state := map k | k in g :: Unvisited;
      stack, stackIndex, cycle := [], map[], [];
      rank, unseen, left := map[], g.Keys, |g|;
    }

    predicate IsVisited(k: string)
      reads this
    {
      k in state && state[k] == Visited
    }

    method Enter(t: string)
      requires Valid() && t in g && state[t] == Unvisited
      requires stack != [] ==> stack[|stack| - 1] in g && t in g[stack[|stack| - 1]]
      modifies this
      ensures Valid() && stack == old(stack) + [t] && cycle == old(cycle) && left < old(left)
      ensures state == old(state)[t := Visiting]
    {
      hide StackFits, RanksFit, UnseenFits, ClosedLinks;
      PushFits(g, state, stack, stackIndex, t);
      EnterRanks(g, state, rank, t);
      StaysUnseen(state, unseen, left, t);
      state, stack, stackIndex, unseen, left :=
        state[t := Visiting], stack + [t], stackIndex[t := |stack|], unseen - {t}, left - 1;
    }

    method Leave(t: string)
      requires Valid() && stack != [] && stack[|stack| - 1] == t && t in g
      requires forall d :: d in g[t] ==> IsVisited(d)
      modifies this
      ensures Valid() && stack == old(stack[..|stack| - 1]) && cycle == old(cycle) && left == old(left)
      ensures state == old(state)[t := Visited]
    {
      hide StackFits, RanksFit, UnseenFits, ClosedLinks;
      var s, top, index := state[t := Visited], stack[..|stack| - 1], stackIndex - {t};
      ghost var r := rank[t := |rank|];
      PopFits(g, state, stack, stackIndex, t);
      FinishRanks(g, state, rank, t);
      StaysUnseen(state, unseen, left, t);
      state, stack, stackIndex, rank := s, top, index, r;
    }

    /** What a search that found nothing leaves behind. */
    twostate predicate Progressed(t: string)
      reads this
    {
      Valid() && left <= old(left) && IsVisited(t) && cycle == old(cycle) && stack == old(stack) &&
      forall k :: old(IsVisited(k)) ==> IsVisited(k)
    }

    method Dfs(t: string) returns (found: bool)
      requires Valid() && t in g && state[t] == Unvisited
      requires stack != [] ==> stack[|stack| - 1] in g && t in g[stack[|stack| - 1]]
      modifies this
      ensures found ==> IsCycle(g, cycle)
      ensures !found ==> Progressed(t)
      decreases left, 0
    {
      hide StackFits, RanksFit, UnseenFits, IsCycle;
      Enter(t);
      var deps := g[t];
      var i := 0;
      while i < |deps|
        invariant 0 <= i <= |deps| && Valid()
        invariant stack == old(stack) + [t] && cycle == old(cycle)
        invariant left < old(left)
        invariant forall j :: 0 <= j < i ==> IsVisited(deps[j])
        invariant forall k :: old(IsVisited(k)) ==> IsVisited(k)
      {
        found := Follow(t, deps[i]);
        if found {
          return;
        }
        i := i + 1;
      }
      assert (old(stack) + [t])[..|old(stack)|] == old(stack);
      Leave(t);
      found := false;
    }

    /** One dependency of the node on top: search it, close a cycle, or pass it by. */
    method Follow(t: string, dep: string) returns (found: bool)
      requires Valid() && stack != [] && stack[|stack| - 1] == t && t in g && dep in g[t]
      modifies this
      ensures found ==> IsCycle(g, cycle)
      ensures !found ==> Progressed(dep)
      decreases left, 1
    {
      assert dep in g;
      hide StackFits, RanksFit, UnseenFits, IsCycle;
      match state[dep] {
        case Unvisited =>
          found := Dfs(dep);
        case Visiting =>
          CloseCycle(dep);
          found := true;
        case Visited =>
          found := false;
      }
    }

    /** A dependency already on the stack closes the path from there to the top. */
    method CloseCycle(dep: string)
      requires Valid() && stack != [] && stack[|stack| - 1] in g && dep in g[stack[|stack| - 1]] && dep in state &&
        state[dep] == Visiting
      modifies this
      ensures IsCycle(g, cycle)
    {
      ClosingLink(g, state, stack, stackIndex, dep);
      var start := stackIndex[dep];
      cycle := stack[start..] + [dep];
    }
  }

  function SortedLinks(g: Links): Links {
    map k | k in g :: SortedList(g[k])
  }

  lemma SortedLinksSame(g: Links)
    ensures SortedLinks(g).Keys == g.Keys
    ensures forall k :: k in g ==> forall d :: d in SortedLinks(g)[k] <==> d in g[k]
    ensures ClosedLinks(g) ==> ClosedLinks(SortedLinks(g))
  {
    forall k | k in g
      ensures forall d :: d in SortedLinks(g)[k] <==> d in g[k]
    {
      SortedListMembers(g[k]);
    }
  }

  /** The search over all nodes in sorted order: it answers a cycle exactly when there is
      one, and otherwise the order in which it finished the nodes ranks them all. */
  method FindDependencyCycle(g: Links) returns (cycle: seq<string>, ghost rank: map<string, nat>)
    requires ClosedLinks(g)
    ensures cycle != [] ==> IsCycle(g, cycle)
    ensures cycle == [] ==> Ranked(g, rank) && rank.Keys == g.Keys
    ensures cycle == [] <==> Acyclic(g)
  {
    rank := map[];
    SortedLinksSame(g);
    hide StackFits, RanksFit, UnseenFits, ClosedLinks, SortedLinks, SortedKeys, Ascending, IsCycle, Ranked, Acyclic;
    var orderedIDs := SortedKeys(g.Keys);
    var finder := new Finder(SortedLinks(g));
    var i := 0;
    while i < |orderedIDs|
      invariant 0 <= i <= |orderedIDs| && fresh(finder)
      invariant finder.Valid() && finder.g == SortedLinks(g) && finder.stack == []
      invariant forall j :: 0 <= j < i ==> finder.IsVisited(orderedIDs[j])
    {
      var taskID := orderedIDs[i];
      assert taskID in Elements(orderedIDs);
      if finder.state[taskID] == Unvisited {
        var found := finder.Dfs(taskID);
        if found {
          cycle := finder.cycle;
          SameCycle(g, cycle);
          return;
        }
      } else {
        NothingVisiting(finder, taskID);
      }
      i := i + 1;
    }
    cycle, rank := [], finder.rank;
    AllRanked(g, finder, orderedIDs);
    RankedIsAcyclic(g, rank);
  }

  lemma SameCycle(g: Links, c: seq<string>)
    requires IsCycle(SortedLinks(g), c)
    ensures IsCycle(g, c) && c != [] && !Acyclic(g)
  {
    SortedLinksSame(g);
    assert IsCycle(g, c);
  }

  lemma NothingVisiting(finder: Finder, t: string)
    requires finder.Valid() && finder.stack == [] && t in finder.g && finder.state[t] != Unvisited
    ensures finder.IsVisited(t)
  {
  }

  lemma AllRanked(g: Links, finder: Finder, ids: seq<string>)
    requires finder.Valid() && finder.g == SortedLinks(g) && Elements(ids) == g.Keys
    requires forall j :: 0 <= j < |ids| ==> finder.IsVisited(ids[j])
    ensures Ranked(g, finder.rank) && finder.rank.Keys == g.Keys
  {
    SortedLinksSame(g);
    forall k | k in g
      ensures k in finder.rank
    {
      assert k in Elements(ids);
      var j :| 0 <= j < |ids| && ids[j] == k;
      assert finder.IsVisited(ids[j]);
    }
    assert finder.rank.Keys == g.Keys;
  }

  // ---- depths along the parents ----

  function ParentLinks(nodes: set<string>, parents: map<string, string>): Links {
    map k | k in nodes :: if k in parents then [parents[k]] else []
  }

  predicate ParentsClosed(nodes: set<string>, parents: map<string, string>) {
    forall k :: k in parents ==> k in nodes && parents[k] in nodes
  }

  /** A node without a parent is at depth 0, any other one below its parent. */
  predicate DepthsFit(parents: map<string, string>, depth: map<string, nat>) {
    forall k :: k in depth ==>
      if k in parents then parents[k] in depth && depth[k] == depth[parents[k]] + 1 else depth[k] == 0
  }

  predicate DepthsKnown(state: map<string, Color>, depth: map<string, nat>) {
    (forall k :: k in depth ==> k in state && state[k] == Visited) &&
    (forall k :: k in state && state[k] == Visited ==> k in depth)
  }

  lemma DepthIsRank(nodes: set<string>, parents: map<string, string>, depth: map<string, nat>)
    requires DepthsFit(parents, depth) && depth.Keys == nodes
    ensures Ranked(ParentLinks(nodes, parents), depth)
  {
  }

  class DepthFinder {
    const nodes: set<string>
    const parents: map<string, string>
    var state: map<string, Color>
    var stack: seq<string>
    var stackPos: map<string, nat>
    var depthByID: map<string, nat>
    var cycle: seq<string>
    ghost var unseen: set<string>
    ghost var left: nat

    ghost predicate Valid()
      reads this
    {
      ParentsClosed(nodes, parents) && state.Keys == nodes &&
      StackFits(ParentLinks(nodes, parents), state, stack, stackPos) &&
      DepthsFit(parents, depthByID) && DepthsKnown(state, depthByID) && UnseenFits(state, unseen, left)
    }

    constructor (nodes: set<string>, parents: map<string, string>)
      requires ParentsClosed(nodes, parents)
      ensures Valid() && this.nodes == nodes && this.parents == parents && stack == []
    {
      this.nodes, this.parents := nodes, parents;
      state := map k | k in nodes :: Unvisited;
      stack, stackPos, depthByID, cycle := [], map[], map[], [];
      unseen, left := nodes, |nodes|;
    }

    predicate IsVisited(k: string)
      reads this
    {
      k in state && state[k] == Visited
    }

    predicate IsNext(id: string)
      reads this
    {
      stack != [] ==> stack[|stack| - 1] in parents && id == parents[stack[|stack| - 1]]
    }

    method Enter(id: string)
      requires Valid() && id in nodes && state[id] == Unvisited && IsNext(id)
      requires stack != [] ==> stack[|stack| - 1] in nodes
      modifies this
      ensures Valid() && stack == old(stack) + [id] && left < old(left) && id in nodes
      ensures state == old(state)[id := Visiting] && depthByID == old(depthByID)
    {
      hide StackFits, UnseenFits, ParentLinks, DepthsFit, ParentsClosed, DepthsKnown;
      LinkToNext(nodes, parents, stack, id);
      PushFits(ParentLinks(nodes, parents), state, stack, stackPos, id);
      KnownAfterEnter(state, depthByID, id);
      StaysUnseen(state, unseen, left, id);
      state, stack, stackPos, unseen, left :=
        state[id := Visiting], stack + [id], stackPos[id := |stack|], unseen - {id}, left - 1;
    }

    method Leave(id: string, depth: nat)
      requires Valid() && stack != [] && stack[|stack| - 1] == id && id in nodes
      requires id !in parents ==> depth == 0
      requires id in parents ==>
        IsVisited(parents[id]) && parents[id] in depthByID && depth == depthByID[parents[id]] + 1
      modifies this
      ensures Valid() && stack == old(stack[..|stack| - 1]) && left == old(left)
      ensures state == old(state)[id := Visited] && depthByID == old(depthByID)[id := depth]
    {
      hide StackFits, UnseenFits, ParentLinks, DepthsFit, ParentsClosed, DepthsKnown;
      PopFits(ParentLinks(nodes, parents), state, stack, stackPos, id);
      KnownAfterLeave(parents, state, depthByID, id, depth);
      StaysUnseen(state, unseen, left, id);
      state, stack, stackPos := state[id := Visited], stack[..|stack| - 1], stackPos - {id};
      depthByID := depthByID[id := depth];
    }

    twostate predicate Progressed(id: string)
      reads this
    {
      Valid() && left <= old(left) && IsVisited(id) && stack == old(stack) &&
      forall k :: old(IsVisited(k)) ==> IsVisited(k)
    }

    method Visit(id: string) returns (depth: nat, err: bool)
      requires Valid() && id in nodes && IsNext(id)
      requires stack != [] ==> stack[|stack| - 1] in nodes
      requires stack == [] ==> state[id] != Visiting
      modifies this
      ensures err ==> IsCycle(ParentLinks(nodes, parents), cycle)
      ensures !err ==> Progressed(id) && id in depthByID && depthByID[id] == depth
      decreases left, 1
    {
      hide StackFits, UnseenFits, ParentLinks, DepthsFit, ParentsClosed, IsCycle;
      depth, err := 0, false;
      if state[id] == Visited {
        depth := depthByID[id];
        return;
      }
      if state[id] == Visiting {
        CloseCycle(id);
        err := true;
        return;
      }
      depth, err := Descend(id);
    }

    /** An unvisited node: its parent's depth first, then its own. */
    method Descend(id: string) returns (depth: nat, err: bool)
      requires Valid() && id in nodes && IsNext(id) && state[id] == Unvisited
      requires stack != [] ==> stack[|stack| - 1] in nodes
      modifies this
      ensures err ==> IsCycle(ParentLinks(nodes, parents), cycle)
      ensures !err ==> Progressed(id) && id in depthByID && depthByID[id] == depth
      decreases left, 0
    {
      hide StackFits, UnseenFits, ParentLinks, DepthsFit, ParentsClosed, DepthsKnown, IsCycle;
      depth, err := 0, false;
      Enter(id);
      if id in parents {
        ParentIsNode(nodes, parents, id);
        var parentDepth;
        parentDepth, err := Visit(parents[id]);
        if err {
          return;
        }
        depth := parentDepth + 1;
      }
      assert (old(stack) + [id])[..|old(stack)|] == old(stack);
      Leave(id, depth);
    }

    method CloseCycle(id: string)
      requires Valid() && id in nodes && stack != [] && IsNext(id) && state[id] == Visiting &&
        stack[|stack| - 1] in nodes
      modifies this
      ensures IsCycle(ParentLinks(nodes, parents), cycle)
    {
      hide StackFits, UnseenFits, ParentLinks, DepthsFit, ParentsClosed, DepthsKnown, IsCycle;
      LinkToNext(nodes, parents, stack, id);
      ClosingLink(ParentLinks(nodes, parents), state, stack, stackPos, id);
      var start := stackPos[id];
      cycle := stack[start..] + [id];
    }
  }

  /** The path from where a node sits on the stack to the top, back to the node. */
  lemma ClosingLink(g: Links, state: map<string, Color>, stack: seq<string>, index: map<string, nat>, id: string)
    requires StackFits(g, state, stack, index) && stack != [] && id in state && state[id] == Visiting
    requires stack[|stack| - 1] in g && id in g[stack[|stack| - 1]]
    ensures id in index && index[id] < |stack| && IsCycle(g, stack[index[id]..] + [id])
  {
  }

  lemma LinkToNext(nodes: set<string>, parents: map<string, string>, stack: seq<string>, id: string)
    requires id in nodes
    requires stack != [] ==>
      stack[|stack| - 1] in nodes && stack[|stack| - 1] in parents && id == parents[stack[|stack| - 1]]
    ensures var g := ParentLinks(nodes, parents);
      id in g && (stack != [] ==> stack[|stack| - 1] in g && id in g[stack[|stack| - 1]])
  {
  }

  lemma ParentIsNode(nodes: set<string>, parents: map<string, string>, id: string)
    requires ParentsClosed(nodes, parents) && id in parents
    ensures parents[id] in nodes
  {
  }

  lemma KnownAfterEnter(state: map<string, Color>, depth: map<string, nat>, id: string)
    requires DepthsKnown(state, depth) && id in state && state[id] == Unvisited
    ensures DepthsKnown(state[id := Visiting], depth)
  {
  }

  lemma KnownAfterLeave(parents: map<string, string>, state: map<string, Color>, depth: map<string, nat>, id: string,
                        d: nat)
    requires DepthsKnown(state, depth) && DepthsFit(parents, depth) && id in state && state[id] == Visiting
    requires if id in parents then parents[id] in depth && d == depth[parents[id]] + 1 else d == 0
    ensures DepthsKnown(state[id := Visited], depth[id := d]) && DepthsFit(parents, depth[id := d])
  {
    assert id !in depth;
  }

  /** Depths for every node exactly when the parent chains have no cycle: then a node is
      one below its parent, and at depth 0 without one. */
  method AssignDepths(nodes: set<string>, parents: map<string, string>) returns (depth: map<string, nat>, err: bool)
    requires ParentsClosed(nodes, parents)
    ensures !err ==> depth.Keys == nodes && DepthsFit(parents, depth)
    ensures !err <==> Acyclic(ParentLinks(nodes, parents))
  {
    hide StackFits, UnseenFits, ParentLinks, DepthsFit, ParentsClosed, DepthsKnown, IsCycle, Acyclic, SortedKeys,
      Ascending, DepthFinder.Valid;
    depth, err := map[], false;
    var ids := SortedKeys(nodes);
    var finder := new DepthFinder(nodes, parents);
    var i := 0;
    while i < |ids|
      invariant 0 <= i <= |ids| && fresh(finder)
      invariant finder.Valid() && finder.nodes == nodes && finder.parents == parents && finder.stack == []
      invariant forall j :: 0 <= j < i ==> finder.IsVisited(ids[j])
    {
      assert ids[i] in Elements(ids);
      NothingUnderWay(finder, ids[i]);
      var d;
      d, err := finder.Visit(ids[i]);
      if err {
        CycleFound(nodes, parents, finder.cycle);
        return;
      }
      i := i + 1;
    }
    depth := finder.depthByID;
    AllDepths(nodes, finder, ids);
    DepthsMeanAcyclic(nodes, parents, depth);
  }

  lemma NothingUnderWay(finder: DepthFinder, id: string)
    requires finder.Valid() && finder.stack == [] && id in finder.nodes
    ensures finder.state[id] != Visiting
  {
  }

  lemma CycleFound(nodes: set<string>, parents: map<string, string>, c: seq<string>)
    requires IsCycle(ParentLinks(nodes, parents), c)
    ensures !Acyclic(ParentLinks(nodes, parents))
  {
  }

  lemma AllDepths(nodes: set<string>, finder: DepthFinder, ids: seq<string>)
    requires finder.Valid() && finder.nodes == nodes && Elements(ids) == nodes
    requires forall j :: 0 <= j < |ids| ==> finder.IsVisited(ids[j])
    ensures finder.depthByID.Keys == nodes && DepthsFit(finder.parents, finder.depthByID)
  {
    forall k | k in nodes
      ensures k in finder.depthByID
    {
      assert k in Elements(ids);
      var j :| 0 <= j < |ids| && ids[j] == k;
      assert finder.IsVisited(ids[j]);
    }
  }

  lemma DepthsMeanAcyclic(nodes: set<string>, parents: map<string, string>, depth: map<string, nat>)
    requires DepthsFit(parents, depth) && depth.Keys == nodes
    ensures Acyclic(ParentLinks(nodes, parents))
  {
    DepthIsRank(nodes, parents, depth);
    RankedIsAcyclic(ParentLinks(nodes, parents), depth);
  }
}
