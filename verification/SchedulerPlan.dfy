/** Planning of the distributed scheduler (internal/distributed/mastermind_scheduler.go):
    which tasks are runnable, in which order graphs take turns, and how many are sent. */
module SchedulerPlan {
  import opened Contracts
  import opened Ordering
  import opened SchedulerGraphs

  // ---- runnable tasks ----

  predicate HasChildren(nodes: Nodes, id: string) {
    exists k :: k in nodes && nodes[k].parent == id
  }

  predicate ClosedIn(nodes: Nodes, d: string) {
    d in nodes && nodes[d].status == Closed
  }

  predicate DependenciesClosed(nodes: Nodes, n: Node) {
    (n.parent != "" ==> ClosedIn(nodes, n.parent)) && forall d :: d in n.dependencies && d != "" ==> ClosedIn(nodes, d)
  }

  predicate Runnable(ref: string, nodes: Nodes, id: string) {
    id in nodes && nodes[id].status == Open && !(nodes[id].id == ref && HasChildren(nodes, nodes[id].id)) &&
    DependenciesClosed(nodes, nodes[id])
  }

  function AllDependencies(n: Node): (deps: seq<string>)
    ensures forall d :: d in deps <==> (d == n.parent && d != "") || d in n.dependencies
  {
    (if n.parent != "" then [n.parent] else []) + n.dependencies
  }

  lemma AllClosed(nodes: Nodes, n: Node)
    ensures DependenciesClosed(nodes, n) <==> forall d :: d in AllDependencies(n) && d != "" ==> ClosedIn(nodes, d)
  {
  }

  method CheckDependencies(nodes: Nodes, n: Node) returns (satisfied: bool)
    ensures satisfied <==> DependenciesClosed(nodes, n)
  {
    hide AllDependencies;
    AllClosed(nodes, n);
    var deps := AllDependencies(n);
    var seen: set<string> := {};
    var i := 0;
    while i < |deps|
      invariant 0 <= i <= |deps|
      invariant forall j :: 0 <= j < i ==> deps[j] == "" || deps[j] in seen
      invariant forall d :: d in seen ==> ClosedIn(nodes, d)
    {
      var d := deps[i];
      assert d in deps;
      i := i + 1;
      if d == "" || d in seen {
        continue;
      }
      if d !in nodes {
        return false;
      }
      if nodes[d].status != Closed {
        return false;
      }
      seen := seen + {d};
    }
    satisfied := true;
  }

  // ---- by priority, then by id ----

  predicate Before(a: Node, b: Node) {
    a.priority > b.priority || (a.priority == b.priority && Less(a.id, b.id))
  }

  predicate Ordered(ns: seq<Node>) {
    forall i, j :: 0 <= i < j < |ns| ==> Before(ns[i], ns[j])
  }

  predicate OwnIds(nodes: Nodes) {
    forall id :: id in nodes ==> nodes[id].id == id
  }

  /** A list of exactly the runnable nodes. */
  ghost predicate Candidates(ref: string, nodes: Nodes, ns: seq<Node>) {
    Ordered(ns) && forall n :: n in ns <==> exists id :: Runnable(ref, nodes, id) && nodes[id] == n
  }

  /** Among the runnable nodes of a graph one of the highest priority comes first, and of
      those the one with the least id. */
  lemma FirstIsUrgent(ref: string, nodes: Nodes, ns: seq<Node>, id: string)
    requires Candidates(ref, nodes, ns) && Runnable(ref, nodes, id)
    ensures ns != [] && ns[0].priority >= nodes[id].priority
    ensures ns[0].priority == nodes[id].priority ==> ns[0] == nodes[id] || Less(ns[0].id, nodes[id].id)
  {
    assert nodes[id] in ns;
    var i :| 0 <= i < |ns| && ns[i] == nodes[id];
    assert i > 0 ==> Before(ns[0], ns[i]);
  }

  function InsertNode(n: Node, ns: seq<Node>): seq<Node> {
    if ns == [] || Before(n, ns[0]) then [n] + ns else [ns[0]] + InsertNode(n, ns[1..])
  }

  lemma BeforeTransitive(a: Node, b: Node, c: Node)
    requires Before(a, b) && Before(b, c)
    ensures Before(a, c)
  {
    if a.priority == b.priority == c.priority {
      LessTransitive(a.id, b.id, c.id);
    }
  }

  lemma {:induction false} InsertNodeOrders(n: Node, ns: seq<Node>)
    requires Ordered(ns) && forall m :: m in ns ==> m.id != n.id
    ensures Ordered(InsertNode(n, ns))
    ensures forall m :: m in InsertNode(n, ns) <==> m == n || m in ns
  {
    if ns == [] {
    } else if Before(n, ns[0]) {
      forall j | 0 < j < |ns|
        ensures Before(n, ns[j])
      {
        BeforeTransitive(n, ns[0], ns[j]);
      }
    } else {
      var rest := ns[1..];
      assert ns == [ns[0]] + rest;
      InsertNodeOrders(n, rest);
      LessTotal(n.id, ns[0].id);
      assert Before(ns[0], n);
      forall m | m in InsertNode(n, rest)
        ensures Before(ns[0], m)
      {
        if m != n {
          var j :| 0 <= j < |rest| && rest[j] == m;
          assert ns[j + 1] == m;
        }
      }
    }
  }

  /** Ids compare differently, so sorting leaves only one list. */
  lemma {:induction false} OrderedUnique(a: seq<Node>, b: seq<Node>)
    requires Ordered(a) && Ordered(b) && forall n :: n in a <==> n in b
    ensures a == b
  {
    assert a == [] || a[0] in b;
    assert b == [] || b[0] in a;
    if a != [] && b != [] {
      FirstOfBoth(a, b);
      forall n
        ensures n in a[1..] <==> n in b[1..]
      {
        InTail(a, n);
        InTail(b, n);
      }
      OrderedUnique(a[1..], b[1..]);
      assert a == [a[0]] + a[1..] && b == [b[0]] + b[1..];
    }
  }

  lemma NotBeforeItself(n: Node)
    ensures !Before(n, n)
  {
    LessIrreflexive(n.id);
  }

  lemma FirstOfBoth(a: seq<Node>, b: seq<Node>)
    requires a != [] && b != [] && Ordered(a) && Ordered(b) && a[0] in b && b[0] in a
    ensures a[0] == b[0]
  {
    if a[0] != b[0] {
      var i :| 0 <= i < |b| && b[i] == a[0];
      var j :| 0 <= j < |a| && a[j] == b[0];
      BeforeTransitive(a[0], b[0], a[0]);
      NotBeforeItself(a[0]);
    }
  }

  lemma InTail(a: seq<Node>, n: Node)
    requires a != [] && Ordered(a)
    ensures n in a[1..] <==> n in a && n != a[0]
  {
    if n in a[1..] {
      var i :| 0 <= i < |a[1..]| && a[1..][i] == n;
      assert a[i + 1] == n;
      NotBeforeItself(n);
    }
    assert a == [a[0]] + a[1..];
  }

  ghost predicate CandidatesSoFar(ref: string, nodes: Nodes, left: set<string>, ns: seq<Node>) {
    Ordered(ns) && forall n :: n in ns <==> n.id !in left && Runnable(ref, nodes, n.id) && nodes[n.id] == n
  }

  lemma CandidatesStep(ref: string, nodes: Nodes, left: set<string>, ns: seq<Node>, id: string)
    requires OwnIds(nodes) && CandidatesSoFar(ref, nodes, left, ns) && id in left && id in nodes
    ensures Runnable(ref, nodes, id) ==> CandidatesSoFar(ref, nodes, left - {id}, InsertNode(nodes[id], ns))
    ensures !Runnable(ref, nodes, id) ==> CandidatesSoFar(ref, nodes, left - {id}, ns)
  {
    hide Runnable, Ordered, Before;
    if Runnable(ref, nodes, id) {
      InsertNodeOrders(nodes[id], ns);
    }
  }

  lemma CandidatesDone(ref: string, nodes: Nodes, ns: seq<Node>)
    requires OwnIds(nodes) && CandidatesSoFar(ref, nodes, {}, ns)
    ensures Candidates(ref, nodes, ns)
  {
    hide Ordered, Before;
    forall n
      ensures n in ns <==> exists id :: Runnable(ref, nodes, id) && nodes[id] == n
    {
      if n in ns {
        assert Runnable(ref, nodes, n.id) && nodes[n.id] == n;
      }
    }
  }

  method RunnableCandidates(ref: string, nodes: Nodes) returns (candidates: seq<Node>)
    requires OwnIds(nodes)
    ensures Candidates(ref, nodes, candidates)
  {
    hide Ordered, Before, Runnable, CandidatesSoFar, OwnIds;
    candidates := [];
    var left := nodes.Keys;
    NoCandidates(ref, nodes);
    while left != {}
      invariant forall id :: id in left ==> id in nodes
      invariant CandidatesSoFar(ref, nodes, left, candidates)
      decreases |left|
    {
      var id :| id in left;
      CandidatesStep(ref, nodes, left, candidates, id);
      left := left - {id};
      var node := nodes[id];
      RunnableIs(ref, nodes, id);
      if node.status != Open {
        continue;
      }
      if node.id == ref && HasChildren(nodes, node.id) {
        continue;
      }
      var satisfied := CheckDependencies(nodes, node);
      if !satisfied {
        continue;
      }
      candidates := InsertNode(node, candidates);
    }
    CandidatesDone(ref, nodes, candidates);
  }

  lemma NoCandidates(ref: string, nodes: Nodes)
    ensures CandidatesSoFar(ref, nodes, nodes.Keys, [])
  {
  }

  lemma RunnableIs(ref: string, nodes: Nodes, id: string)
    requires id in nodes
    ensures Runnable(ref, nodes, id) <==>
      nodes[id].status == Open && !(nodes[id].id == ref && HasChildren(nodes, nodes[id].id)) &&
      DependenciesClosed(nodes, nodes[id])
  {
  }

  // ---- graphs take turns ----

  type Queues = seq<seq<Node>>

  function Head(q: seq<Node>): seq<Node> {
    if q == [] then [] else [q[0]]
  }

  function Tail(q: seq<Node>): seq<Node> {
    if q == [] then [] else q[1..]
  }

  function Heads(qs: Queues): seq<Node> {
    if qs == [] then [] else Heads(qs[..|qs| - 1]) + Head(qs[|qs| - 1])
  }

  function Tails(qs: Queues): (r: Queues)
    ensures |r| == |qs| && forall i :: 0 <= i < |qs| ==> r[i] == Tail(qs[i])
  {
    seq(|qs|, i requires 0 <= i < |qs| => Tail(qs[i]))
  }

  function Total(qs: Queues): nat {
    if qs == [] then 0 else Total(qs[..|qs| - 1]) + |qs[|qs| - 1]|
  }

  lemma {:induction false} TotalFalls(qs: Queues)
    ensures Total(qs) == |Heads(qs)| + Total(Tails(qs))
    decreases |qs|
  {
    if qs != [] {
      TotalFalls(qs[..|qs| - 1]);
      assert Tails(qs)[..|qs| - 1] == Tails(qs[..|qs| - 1]);
    }
  }

  /** Round after round, one node from every graph that has any left. */
  function RoundRobin(qs: Queues): seq<Node>
    decreases Total(qs)
  {
    TotalFalls(qs);
    if Heads(qs) == [] then [] else Heads(qs) + RoundRobin(Tails(qs))
  }

  function Rotated(refs: seq<string>, turn: nat): seq<string> {
    if refs == [] then [] else
      var start := turn % |refs|;
      refs[start..] + refs[..start]
  }

  method TakeTurns(qs: Queues) returns (result: seq<Node>)
    ensures result == RoundRobin(qs)
  {
    hide Heads, Tails;
    result := [];
    var remaining := qs;
    while true
      invariant result + RoundRobin(remaining) == RoundRobin(qs)
      decreases Total(remaining)
    {
      TotalFalls(remaining);
      ghost var before := remaining;
      ghost var had := result;
      var picked;
      remaining, result, picked := OneRound(remaining, result);
      if picked == 0 {
        return;
      }
      assert (had + Heads(before)) + RoundRobin(remaining) == had + (Heads(before) + RoundRobin(remaining));
    }
  }

  method OneRound(qs: Queues, result0: seq<Node>) returns (remaining: Queues, result: seq<Node>, picked: nat)
    ensures remaining == Tails(qs) && result == result0 + Heads(qs) && picked == |Heads(qs)|
  {
    hide Heads, Tails;
    remaining, result, picked := qs, result0, 0;
    assert Heads(qs[..0]) == [] by {
      NoneFirst(qs);
    }
    var i := 0;
    while i < |qs|
      invariant 0 <= i <= |qs| == |remaining|
      invariant forall j :: 0 <= j < |qs| ==> remaining[j] == if j < i then Tail(qs[j]) else qs[j]
      invariant result == result0 + Heads(qs[..i]) && picked == |Heads(qs[..i])|
    {
      var candidates := remaining[i];
      NextHead(qs, i);
      if |candidates| > 0 {
        remaining := remaining[i := candidates[1..]];
        result := result + [candidates[0]];
        picked := picked + 1;
      }
      i := i + 1;
    }
    assert qs[..|qs|] == qs;
    assert remaining == Tails(qs);
  }

  lemma NoneFirst(qs: Queues)
    ensures Heads(qs[..0]) == []
  {
  }

  lemma NextHead(qs: Queues, i: nat)
    requires i < |qs|
    ensures Heads(qs[..i + 1]) == Heads(qs[..i]) + Head(qs[i])
  {
    assert qs[..i + 1][..i] == qs[..i];
  }

  // ---- who gets a turn when ----

  /** Which queue each node of a round comes from, and each node of the whole order. */
  function HeadSources(qs: Queues): (r: seq<nat>)
    ensures |r| == |Heads(qs)|
  {
    if qs == [] then [] else HeadSources(qs[..|qs| - 1]) + if qs[|qs| - 1] == [] then [] else [|qs| - 1]
  }

  function Sources(qs: Queues): (r: seq<nat>)
    ensures |r| == |RoundRobin(qs)|
    decreases Total(qs)
  {
    TotalFalls(qs);
    if Heads(qs) == [] then [] else HeadSources(qs) + Sources(Tails(qs))
  }

  /** The nodes that come from one queue, in the order they stand. */
  function Part(ns: seq<Node>, from: seq<nat>, i: nat): seq<Node>
    requires |ns| == |from|
  {
    if ns == [] then [] else
      Part(ns[..|ns| - 1], from[..|ns| - 1], i) + if from[|ns| - 1] == i then [ns[|ns| - 1]] else []
  }

  lemma {:induction false} PartOfBoth(a: seq<Node>, fa: seq<nat>, b: seq<Node>, fb: seq<nat>, i: nat)
    requires |a| == |fa| && |b| == |fb|
    ensures Part(a + b, fa + fb, i) == Part(a, fa, i) + Part(b, fb, i)
    decreases |b|
  {
    if b == [] {
      assert a + b == a && fa + fb == fa;
    } else {
      PartOfBoth(a, fa, b[..|b| - 1], fb[..|b| - 1], i);
      assert (a + b)[..|a + b| - 1] == a + b[..|b| - 1];
      assert (fa + fb)[..|a + b| - 1] == fa + fb[..|b| - 1];
    }
  }

  lemma PartOfHead(q: seq<Node>, from: nat, i: nat)
    ensures |Head(q)| == if q == [] then 0 else 1
    ensures Part(Head(q), if q == [] then [] else [from], i) == if from == i then Head(q) else []
  {
    if q != [] {
      assert [q[0]][..0] == [] && [from][..0] == [];
    }
  }

  lemma {:induction false} PartOfHeads(qs: Queues, i: nat)
    ensures Part(Heads(qs), HeadSources(qs), i) == if i < |qs| then Head(qs[i]) else []
    decreases |qs|
  {
    hide Part, Head;
    if qs == [] {
      EmptyPart(i);
    } else {
      var last := |qs| - 1;
      PartOfHeads(qs[..last], i);
      PartOfHead(qs[last], last, i);
      PartOfBoth(Heads(qs[..last]), HeadSources(qs[..last]), Head(qs[last]), if qs[last] == [] then [] else [last], i);
    }
  }

  lemma EmptyPart(i: nat)
    ensures Part([], [], i) == []
  {
  }

  lemma {:induction false} NoHeads(qs: Queues)
    ensures Heads(qs) == [] <==> forall i :: 0 <= i < |qs| ==> qs[i] == []
    decreases |qs|
  {
    if qs != [] {
      NoHeads(qs[..|qs| - 1]);
    }
  }

  /** Taking turns loses nothing, adds nothing, and keeps each graph's own order. */
  lemma {:induction false} TurnsKeepEachGraph(qs: Queues, i: nat)
    ensures Part(RoundRobin(qs), Sources(qs), i) == if i < |qs| then qs[i] else []
    decreases Total(qs)
  {
    hide Part, Heads, HeadSources, Head, Tail;
    TotalFalls(qs);
    NoHeads(qs);
    if Heads(qs) == [] {
      EmptyPart(i);
    } else {
      PartOfHeads(qs, i);
      TurnsKeepEachGraph(Tails(qs), i);
      PartOfBoth(Heads(qs), HeadSources(qs), RoundRobin(Tails(qs)), Sources(Tails(qs)), i);
      if i < |qs| {
        HeadAndTail(qs[i]);
      }
    }
  }

  lemma HeadAndTail(q: seq<Node>)
    ensures Head(q) + Tail(q) == q
  {
  }

  lemma PartOfPrefix(ns: seq<Node>, from: seq<nat>, n: nat, i: nat)
    requires |ns| == |from| && n <= |ns|
    ensures Part(ns, from, i) == Part(ns[..n], from[..n], i) + Part(ns[n..], from[n..], i)
  {
    PartOfBoth(ns[..n], from[..n], ns[n..], from[n..], i);
    assert ns == ns[..n] + ns[n..] && from == from[..n] + from[n..];
  }

  /** In any prefix of the order, a graph with nodes left trails no other by more than one. */
  lemma {:induction false} TurnsAreFair(qs: Queues, n: nat, i: nat, j: nat)
    requires i < |qs| && j < |qs| && n <= |RoundRobin(qs)|
    requires |Part(RoundRobin(qs)[..n], Sources(qs)[..n], i)| < |qs[i]|
    ensures |Part(RoundRobin(qs)[..n], Sources(qs)[..n], j)| <= |Part(RoundRobin(qs)[..n], Sources(qs)[..n], i)| + 1
    decreases Total(qs)
  {
    hide Heads, HeadSources, Part;
    var first, later := Heads(qs), RoundRobin(Tails(qs));
    var from, rest := HeadSources(qs), Sources(Tails(qs));
    TotalFalls(qs);
    PartOfHeads(qs, i);
    PartOfHeads(qs, j);
    if first == [] {
      EmptyPart(j);
    } else if n <= |first| {
      assert RoundRobin(qs)[..n] == first[..n] && Sources(qs)[..n] == from[..n];
      PartOfPrefix(first, from, n, j);
    } else {
      var m := n - |first|;
      assert RoundRobin(qs)[..n] == first + later[..m] && Sources(qs)[..n] == from + rest[..m];
      PartOfBoth(first, from, later[..m], rest[..m], i);
      PartOfBoth(first, from, later[..m], rest[..m], j);
      TurnsAreFair(Tails(qs), m, i, j);
    }
  }

  // ---- the next runnable nodes ----

  function KeyOf(n: Node): Key {
    (n.graph, n.id)
  }

  /** Nodes sit under their own ids, as the scheduler puts them. */
  predicate Keyed(graphs: map<string, Nodes>) {
    forall ref :: ref in graphs ==> OwnIds(graphs[ref])
  }

  ghost predicate IsQueues(graphs: map<string, Nodes>, refs: seq<string>, qs: Queues) {
    |qs| == |refs| && forall i :: 0 <= i < |refs| ==> refs[i] in graphs && Candidates(refs[i], graphs[refs[i]], qs[i])
  }

  function TurnOrder(graphs: map<string, Nodes>, turn: nat): seq<string> {
    Rotated(SortedKeys(graphs.Keys), turn)
  }

  lemma TurnOrderIs(graphs: map<string, Nodes>, turn: nat)
    ensures forall ref :: ref in TurnOrder(graphs, turn) <==> ref in graphs
    ensures forall i, j :: 0 <= i < j < |TurnOrder(graphs, turn)| ==>
      TurnOrder(graphs, turn)[i] != TurnOrder(graphs, turn)[j]
  {
    hide SortedKeys, Ascending, Rotated;
    var refs := SortedKeys(graphs.Keys);
    assert forall ref :: ref in refs <==> ref in Elements(refs);
    AscendingDistinct(refs);
    RotatedMembers(refs, turn);
  }

  predicate Different(refs: seq<string>) {
    forall i, j :: 0 <= i < j < |refs| ==> refs[i] != refs[j]
  }

  lemma AscendingDistinct(refs: seq<string>)
    requires Ascending(refs)
    ensures Different(refs)
  {
    hide Less;
    forall i, j | 0 <= i < j < |refs|
      ensures refs[i] != refs[j]
    {
      LessIrreflexive(refs[i]);
    }
  }

  lemma RotatedMembers(refs: seq<string>, turn: nat)
    requires Different(refs)
    ensures Different(Rotated(refs, turn)) && forall ref :: ref in Rotated(refs, turn) <==> ref in refs
  {
    if refs != [] {
      var start := turn % |refs|;
      assert refs == refs[..start] + refs[start..];
    }
  }

  method CollectCandidates(graphs: map<string, Nodes>, refs: seq<string>) returns (remaining: Queues)
    requires Keyed(graphs) && forall ref :: ref in refs ==> ref in graphs
    ensures IsQueues(graphs, refs, remaining)
  {
    remaining := [];
    var i := 0;
    while i < |refs|
      invariant 0 <= i <= |refs| && |remaining| == i
      invariant forall j :: 0 <= j < i ==> Candidates(refs[j], graphs[refs[j]], remaining[j])
    {
      assert refs[i] in refs;
      var candidates := RunnableCandidates(refs[i], graphs[refs[i]]);
      remaining := remaining + [candidates];
      i := i + 1;
    }
  }

  /** The queues are a proof's witness: they are determined by the graphs. */
  method NextRunnable(s: Scheduler) returns (result: seq<Node>, ghost qs: Queues)
    requires Keyed(s.graphs)
    modifies s`turn
    ensures IsQueues(s.graphs, TurnOrder(s.graphs, old(s.turn)), qs) && result == RoundRobin(qs)
    ensures s.turn == old(s.turn) + if s.graphs.Keys == {} then 0 else 1
  {
    var refs := SortedKeys(s.graphs.Keys);
    TurnOrderIs(s.graphs, s.turn);
    TurnOrderFrom(s.graphs, s.turn);
    NoKeys(s.graphs.Keys);
    if |refs| == 0 {
      NoTurns();
      return [], [];
    }
    var start := s.turn % |refs|;
    var ordered := refs[start..] + refs[..start];
    s.turn := s.turn + 1;
    var remaining := CollectCandidates(s.graphs, ordered);
    qs := remaining;
    result := TakeTurns(remaining);
  }

  lemma TurnOrderFrom(graphs: map<string, Nodes>, turn: nat)
    ensures var refs := SortedKeys(graphs.Keys);
      TurnOrder(graphs, turn) == if refs == [] then [] else refs[turn % |refs|..] + refs[..turn % |refs|]
  {
  }

  lemma NoKeys(s: set<string>)
    ensures SortedKeys(s) == [] <==> s == {}
  {
  }

  lemma NoTurns()
    ensures RoundRobin([]) == []
  {
  }

  // ---- turns over several passes ----

  lemma {:induction false} RoundsGrow(p: int, q: int, n: int)
    requires p < q && n > 0
    ensures p * n + n <= q * n
    decreases q - p
  {
    assert q * n == (q - 1) * n + n;
    if p < q - 1 {
      RoundsGrow(p, q - 1, n);
    }
  }

  /** A number is a whole number of rounds and a rest in one way only. */
  lemma OneRest(p: int, q: int, n: int, i: int, r: int)
    requires 0 <= i < n && 0 <= r < n && q * n + i == p * n + r
    ensures i == r
  {
    if p < q {
      RoundsGrow(p, q, n);
    } else if q < p {
      RoundsGrow(q, p, n);
    }
  }

  lemma WholeRounds(q: nat, n: nat, i: nat)
    requires i < n
    ensures q * n + i >= 0 && (q * n + i) % n == i
  {
    var a := q * n + i;
    OneRest(a / n, q, n, i, a % n);
  }

  /** The turn from which on some index comes first again. */
  lemma TurnFor(turn: nat, n: nat, i: nat) returns (t: nat)
    requires i < n
    ensures turn <= t < turn + n && t % n == i
  {
    var q := turn / n;
    assert turn == q * n + turn % n;
    if turn % n <= i {
      t := q * n + i;
      WholeRounds(q, n, i);
    } else {
      t := (q + 1) * n + i;
      WholeRounds(q + 1, n, i);
      assert (q + 1) * n == q * n + n;
    }
  }

  /** In as many passes as there are graphs, each graph once has the first turn. */
  lemma EveryGraphGoesFirst(graphs: map<string, Nodes>, turn: nat, ref: string) returns (t: nat)
    requires ref in graphs
    ensures turn <= t < turn + |graphs.Keys|
    ensures TurnOrder(graphs, t) != [] && TurnOrder(graphs, t)[0] == ref
  {
    hide SortedKeys, Less;
    var refs := SortedKeys(graphs.Keys);
    assert ref in Elements(refs);
    var i :| 0 <= i < |refs| && refs[i] == ref;
    KeyCount(graphs.Keys);
    t := TurnFor(turn, |refs|, i);
    TurnOrderFrom(graphs, t);
    assert refs[t % |refs|..][0] == ref;
  }

  lemma {:induction false} KeyCount(s: set<string>)
    ensures |SortedKeys(s)| == |s|
    decreases s
  {
    if s != {} {
      KeyCount(s - {Minimum(s)});
    }
  }
}
