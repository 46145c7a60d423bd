/** One pass of the distributed scheduler (internal/distributed/mastermind_scheduler.go,
    plan and scheduleOnce): the runnable tasks some executor can take are sent while the
    budget lasts, the others are reported blocked once. */
module SchedulePass {
  import opened Contracts
  import opened SchedulerGraphs
  import opened SchedulerPlan

  // ---- executors ----

  datatype Executor = Executor(slots: int, capabilities: set<string>, credentials: set<string>, docker: bool,
                               git: bool, go: bool)

  predicate ProbeHolds(name: string, e: Executor) {
    (name == "docker" || name == "has_docker" ==> e.docker) && (name == "git" || name == "has_git" ==> e.git) &&
    (name == "go" || name == "has_go" ==> e.go)
  }

  /** Environment names other than these three are met by every executor. */
  predicate Matches(r: Requirements, e: Executor) {
    (forall c :: c in r.capabilities ==> c in e.capabilities) &&
    (forall c :: c in r.credentials ==> c in e.credentials) &&
    forall name :: name in r.environment && r.environment[name] ==> ProbeHolds(name, e)
  }

  predicate AnyMatches(r: Requirements, es: seq<Executor>) {
    exists i :: 0 <= i < |es| && Matches(r, es[i])
  }

  method ExecutorMatches(r: Requirements, e: Executor) returns (matches: bool)
    ensures matches <==> Matches(r, e)
  {
    if |r.capabilities| > 0 {
      if e.capabilities == {} {
        assert r.capabilities[0] in r.capabilities;
        return false;
      }
      if exists c :: c in r.capabilities && c !in e.capabilities {
        return false;
      }
    }
    for i := 0 to |r.credentials|
      invariant forall j :: 0 <= j < i ==> r.credentials[j] in e.credentials
    {
      if r.credentials[i] !in e.credentials {
        return false;
      }
    }
    var left := r.environment.Keys;
    while left != {}
      invariant forall name :: name in left ==> name in r.environment
      invariant forall name :: name in r.environment && name !in left && r.environment[name] ==> ProbeHolds(name, e)
      decreases |left|
    {
      var name :| name in left;
      left := left - {name};
      if !r.environment[name] {
        continue;
      }
      if name == "docker" || name == "has_docker" {
        if !e.docker {
          return false;
        }
      } else if name == "git" || name == "has_git" {
        if !e.git {
          return false;
        }
      } else if name == "go" || name == "has_go" {
        if !e.go {
          return false;
        }
      }
    }
    matches := true;
  }

  method AnyExecutorMatches(r: Requirements, es: seq<Executor>) returns (matches: bool)
    ensures matches <==> AnyMatches(r, es)
  {
    for i := 0 to |es|
      invariant forall j :: 0 <= j < i ==> !Matches(r, es[j])
    {
      var m := ExecutorMatches(r, es[i]);
      if m {
        return true;
      }
    }
    matches := false;
  }

  /** What a task can ask for and an executor can offer. */
  datatype Asset = Capability(name: string) | Credential(name: string) | Docker | Git | Go

  function Offered(e: Executor): set<Asset> {
    (set c | c in e.capabilities :: Capability(c)) + (set c | c in e.credentials :: Credential(c)) +
    (if e.docker then {Docker} else {}) + (if e.git then {Git} else {}) + (if e.go then {Go} else {})
  }

  predicate Requires(r: Requirements, name: string) {
    name in r.environment && r.environment[name]
  }

  function Asked(r: Requirements): set<Asset> {
    (set c | c in r.capabilities :: Capability(c)) + (set c | c in r.credentials :: Credential(c)) +
    (if Requires(r, "docker") || Requires(r, "has_docker") then {Docker} else {}) +
    (if Requires(r, "git") || Requires(r, "has_git") then {Git} else {}) +
    (if Requires(r, "go") || Requires(r, "has_go") then {Go} else {})
  }

  /** An executor matches exactly when it offers all that is asked for. */
  lemma MatchesIff(r: Requirements, e: Executor)
    ensures Matches(r, e) <==> Asked(r) <= Offered(e)
  {
    hide ProbeHolds, Asked, Offered, Requires;
    EnvironmentHolds(r, e);
    OfferedIs(e);
    AskedIs(r);
    var asked, offered := Asked(r), Offered(e);
    if Matches(r, e) {
      forall a | a in asked
        ensures a in offered
      {
        match a
        case Capability(c) => assert c in r.capabilities;
        case Credential(c) => assert c in r.credentials;
        case _ =>
      }
    }
    if asked <= offered {
      assert forall c :: c in r.capabilities ==> Capability(c) in asked;
      assert forall c :: c in r.credentials ==> Credential(c) in asked;
    }
  }

  lemma OfferedIs(e: Executor)
    ensures forall c :: Capability(c) in Offered(e) <==> c in e.capabilities
    ensures forall c :: Credential(c) in Offered(e) <==> c in e.credentials
    ensures (Docker in Offered(e) <==> e.docker) && (Git in Offered(e) <==> e.git) && (Go in Offered(e) <==> e.go)
  {
  }

  lemma AskedIs(r: Requirements)
    ensures forall c :: Capability(c) in Asked(r) <==> c in r.capabilities
    ensures forall c :: Credential(c) in Asked(r) <==> c in r.credentials
    ensures Docker in Asked(r) <==> Requires(r, "docker") || Requires(r, "has_docker")
    ensures Git in Asked(r) <==> Requires(r, "git") || Requires(r, "has_git")
    ensures Go in Asked(r) <==> Requires(r, "go") || Requires(r, "has_go")
  {
    hide Requires;
  }

  lemma EnvironmentHolds(r: Requirements, e: Executor)
    ensures (forall name :: name in r.environment && r.environment[name] ==> ProbeHolds(name, e)) <==>
      (Requires(r, "docker") || Requires(r, "has_docker") ==> e.docker) &&
      (Requires(r, "git") || Requires(r, "has_git") ==> e.git) && (Requires(r, "go") || Requires(r, "has_go") ==> e.go)
  {
    assert forall name :: Requires(r, name) ==> name in r.environment && r.environment[name];
  }

  /** Offering more never loses a match. */
  lemma MoreNeverLoses(r: Requirements, e: Executor, f: Executor)
    requires Matches(r, e) && Offered(e) <= Offered(f)
    ensures Matches(r, f)
  {
    MatchesIff(r, e);
    MatchesIff(r, f);
  }

  // ---- the budget ----

  function FreeSlots(es: seq<Executor>): nat {
    if es == [] then 0 else
      FreeSlots(es[..|es| - 1]) + if es[|es| - 1].slots > 0 then es[|es| - 1].slots else 0
  }

  function MaxInFlight(es: seq<Executor>, backpressure: real): int {
    (FreeSlots(es) as real * backpressure).Floor
  }

  function Budget(s: Sched, es: seq<Executor>, backpressure: real): nat {
    var left := MaxInFlight(es, backpressure) - (|s.enqueued| + |s.inProgress|);
    if left < 0 then 0 else left
  }

  /** Free slots add up over the executors; those that report fewer than none count as full. */
  lemma {:induction false} FreeSlotsAdd(a: seq<Executor>, b: seq<Executor>)
    ensures FreeSlots(a + b) == FreeSlots(a) + FreeSlots(b)
    decreases |b|
  {
    if b == [] {
      assert a + b == a;
    } else {
      assert (a + b)[..|a + b| - 1] == a + b[..|b| - 1];
      FreeSlotsAdd(a, b[..|b| - 1]);
    }
  }

  lemma OneExecutorsSlots(e: Executor)
    ensures FreeSlots([e]) == if e.slots > 0 then e.slots else 0
  {
  }

  /** The limit of two groups of executors together is the sum of theirs, up to the rounding. */
  lemma LimitsAdd(a: seq<Executor>, b: seq<Executor>, backpressure: real)
    requires backpressure > 0.0
    ensures MaxInFlight(a, backpressure) + MaxInFlight(b, backpressure) <= MaxInFlight(a + b, backpressure) <=
      MaxInFlight(a, backpressure) + MaxInFlight(b, backpressure) + 1
  {
    hide FreeSlots;
    FreeSlotsAdd(a, b);
    var x, y := FreeSlots(a) as real, FreeSlots(b) as real;
    assert (x + y) * backpressure == x * backpressure + y * backpressure;
  }

  /** Without a backpressure but one, the budget of an idle scheduler is all the free slots. */
  lemma IdleBudget(s: Sched, es: seq<Executor>)
    requires s.enqueued == {} && s.inProgress == {}
    ensures Budget(s, es, 1.0) == FreeSlots(es)
  {
    hide FreeSlots;
  }

  // ---- what a pass does with the runnable tasks ----

  datatype Item = Item(key: Key, queue: string, node: Node)
  datatype Planned = Planned(items: seq<Item>, reports: seq<Key>, blocked: set<Key>)

  function Route(prefix: string, r: Requirements): string {
    if r.capabilities == [] then prefix else prefix + "." + r.capabilities[0]
  }

  predicate InFlight(s: Sched, key: Key) {
    key in s.enqueued || key in s.inProgress
  }

  function PlanFor(s: Sched, prefix: string, es: seq<Executor>, budget: nat, ns: seq<Node>): Planned {
    if ns == [] then Planned([], [], s.blocked) else
      var n := ns[|ns| - 1];
      var key := KeyOf(n);
      var p := PlanFor(s, prefix, es, budget, ns[..|ns| - 1]);
      if InFlight(s, key) then p
      else if AnyMatches(n.needs, es) then
        if |p.items| < budget then
          Planned(p.items + [Item(key, Route(prefix, n.needs), n)], p.reports, p.blocked - {key})
        else p.(blocked := p.blocked - {key})
      else if key in p.blocked then p
      else p.(reports := p.reports + [key])
  }

  method Plan(s: Scheduler, prefix: string, backpressure: real, es: seq<Executor>)
    returns (items: seq<Item>, reports: seq<Key>, ghost qs: Queues)
    requires Keyed(s.graphs) && backpressure > 0.0
    modifies s`turn, s`blocked
    ensures IsQueues(s.graphs, TurnOrder(s.graphs, old(s.turn)), qs)
    ensures Planned(items, reports, s.blocked) ==
      PlanFor(old(s.Current()), prefix, es, Budget(old(s.Current()), es, backpressure), RoundRobin(qs))
    ensures s.turn == old(s.turn) + if s.graphs.Keys == {} then 0 else 1
  {
    hide PlanFor, Budget, RoundRobin, Keyed, IsQueues, TurnOrder;
    var budget := ReadBudget(s, backpressure, es);
    ghost var s0 := s.Current();
    var runnable;
    runnable, qs := NextRunnable(s);
    items, reports := PlanAll(s, s0, prefix, es, budget, runnable);
  }

  method ReadBudget(s: Scheduler, backpressure: real, es: seq<Executor>) returns (budget: nat)
    requires backpressure > 0.0
    ensures budget == Budget(s.Current(), es, backpressure)
  {
    hide FreeSlots;
    var freeSlots := CountFreeSlots(es);
    var maxInFlight := (freeSlots as real * backpressure).Floor;
    var left := maxInFlight - (|s.enqueued| + |s.inProgress|);
    budget := if left < 0 then 0 else left;
  }

  method CountFreeSlots(es: seq<Executor>) returns (freeSlots: nat)
    ensures freeSlots == FreeSlots(es)
  {
    freeSlots := 0;
    for i := 0 to |es|
      invariant freeSlots == FreeSlots(es[..i])
    {
      assert es[..i + 1][..i] == es[..i];
      if es[i].slots > 0 {
        freeSlots := freeSlots + es[i].slots;
      }
    }
    assert es[..|es|] == es;
  }

  method PlanAll(s: Scheduler, ghost s0: Sched, prefix: string, es: seq<Executor>, budget0: nat, runnable: seq<Node>)
    returns (items: seq<Item>, reports: seq<Key>)
    requires s.enqueued == s0.enqueued && s.inProgress == s0.inProgress && s.blocked == s0.blocked
    modifies s`blocked
    ensures Planned(items, reports, s.blocked) == PlanFor(s0, prefix, es, budget0, runnable)
  {
    hide AnyMatches;
    items, reports := [], [];
    var budget := budget0;
    var i := 0;
    while i < |runnable|
      invariant 0 <= i <= |runnable|
      invariant Planned(items, reports, s.blocked) == PlanFor(s0, prefix, es, budget0, runnable[..i])
      invariant budget == budget0 - |items|
    {
      var node := runnable[i];
      var key := KeyOf(node);
      assert runnable[..i + 1][..i] == runnable[..i];
      i := i + 1;
      if key in s.enqueued {
        continue;
      }
      if key in s.inProgress {
        continue;
      }
      var matches := AnyExecutorMatches(node.needs, es);
      if matches {
        s.blocked := s.blocked - {key};
      }
      if !matches {
        if key in s.blocked {
          continue;
        }
        reports := reports + [key];
        continue;
      }
      if budget <= 0 {
        continue;
      }
      items := items + [Item(key, Route(prefix, node.needs), node)];
      budget := budget - 1;
    }
    assert runnable[..|runnable|] == runnable;
  }

  /** Plan, then publish: what the bus refuses (lost) stays unmarked. */
  function AfterPass(s: Sched, p: Planned, lost: set<Key>): Sched {
    s.(turn := s.turn + (if s.graphs.Keys == {} then 0 else 1),
      blocked := p.blocked + (set key | key in p.reports && key !in lost),
      enqueued := s.enqueued + (set item | item in p.items && item.key !in lost :: item.key))
  }

  method ScheduleOnce(s: Scheduler, prefix: string, backpressure: real, es: seq<Executor>, lost: set<Key>)
    returns (ghost qs: Queues)
    requires Keyed(s.graphs) && backpressure > 0.0
    modifies s
    ensures IsQueues(s.graphs, TurnOrder(s.graphs, old(s.turn)), qs)
    ensures var p := PlanFor(old(s.Current()), prefix, es, Budget(old(s.Current()), es, backpressure), RoundRobin(qs));
      s.Current() == AfterPass(old(s.Current()), p, lost)
  {
    hide PlanFor, Budget, RoundRobin, Keyed, AfterPass;
    var items, reports;
    items, reports, qs := Plan(s, prefix, backpressure, es);
    AfterPassIs(old(s.Current()), Planned(items, reports, s.blocked), lost);
    MarkBlocked(s, reports, lost);
    MarkEnqueued(s, items, lost);
  }

  lemma AfterPassIs(s: Sched, p: Planned, lost: set<Key>)
    ensures AfterPass(s, p, lost) == Sched(s.graphs,
      s.enqueued + (set item | item in p.items && item.key !in lost :: item.key), s.inProgress,
      p.blocked + (set key | key in p.reports && key !in lost), s.turn + if s.graphs.Keys == {} then 0 else 1)
  {
  }

  method MarkBlocked(s: Scheduler, reports: seq<Key>, lost: set<Key>)
    modifies s`blocked
    ensures s.blocked == old(s.blocked) + set key | key in reports && key !in lost
  {
    var i := 0;
    while i < |reports|
      invariant 0 <= i <= |reports|
      invariant s.blocked == old(s.blocked) + set key | key in reports[..i] && key !in lost
    {
      assert reports[..i + 1] == reports[..i] + [reports[i]];
      if reports[i] !in lost {
        s.blocked := s.blocked + {reports[i]};
      }
      i := i + 1;
    }
    assert reports[..|reports|] == reports;
  }

  method MarkEnqueued(s: Scheduler, items: seq<Item>, lost: set<Key>)
    modifies s`enqueued
    ensures s.enqueued == old(s.enqueued) + set item | item in items && item.key !in lost :: item.key
  {
    var i := 0;
    while i < |items|
      invariant 0 <= i <= |items|
      invariant s.enqueued == old(s.enqueued) + set item | item in items[..i] && item.key !in lost :: item.key
    {
      assert items[..i + 1] == items[..i] + [items[i]];
      if items[i].key !in lost {
        s.enqueued := s.enqueued + {items[i].key};
      }
      i := i + 1;
    }
    assert items[..|items|] == items;
  }

  // ---- what is planned ----

  /** Runnable, not in flight, and some executor can take it. */
  predicate Eligible(s: Sched, es: seq<Executor>, n: Node) {
    !InFlight(s, KeyOf(n)) && AnyMatches(n.needs, es)
  }

  function EligibleOf(s: Sched, es: seq<Executor>, ns: seq<Node>): seq<Node> {
    if ns == [] then [] else
      EligibleOf(s, es, ns[..|ns| - 1]) + if Eligible(s, es, ns[|ns| - 1]) then [ns[|ns| - 1]] else []
  }

  function Items(prefix: string, ns: seq<Node>): (items: seq<Item>)
    ensures |items| == |ns| &&
      forall i :: 0 <= i < |ns| ==> items[i] == Item(KeyOf(ns[i]), Route(prefix, ns[i].needs), ns[i])
  {
    seq(|ns|, i requires 0 <= i < |ns| => Item(KeyOf(ns[i]), Route(prefix, ns[i].needs), ns[i]))
  }

  function AtMost(n: nat, budget: nat): nat {
    if n < budget then n else budget
  }

  /** The plan is the eligible tasks in order, cut off where the budget ends and not before. */
  lemma {:induction false} PlanIsEligiblePrefix(s: Sched, prefix: string, es: seq<Executor>, budget: nat, ns: seq<Node>)
    ensures var eligible := EligibleOf(s, es, ns);
      PlanFor(s, prefix, es, budget, ns).items == Items(prefix, eligible)[..AtMost(|eligible|, budget)]
    decreases |ns|
  {
    hide AnyMatches;
    if ns != [] {
      var front := ns[..|ns| - 1];
      PlanIsEligiblePrefix(s, prefix, es, budget, front);
      ItemsGrow(prefix, EligibleOf(s, es, front), ns[|ns| - 1]);
    }
  }

  lemma ItemsGrow(prefix: string, ns: seq<Node>, n: Node)
    ensures Items(prefix, ns + [n]) == Items(prefix, ns) + [Item(KeyOf(n), Route(prefix, n.needs), n)]
  {
  }

  lemma {:induction false} EligibleMembers(s: Sched, es: seq<Executor>, ns: seq<Node>)
    ensures forall n :: n in EligibleOf(s, es, ns) <==> n in ns && Eligible(s, es, n)
    decreases |ns|
  {
    hide Eligible;
    if ns != [] {
      EligibleMembers(s, es, ns[..|ns| - 1]);
      assert ns == ns[..|ns| - 1] + [ns[|ns| - 1]];
    }
  }

  predicate DistinctKeys(ns: seq<Node>) {
    forall i, j :: 0 <= i < j < |ns| ==> KeyOf(ns[i]) != KeyOf(ns[j])
  }

  lemma {:induction false} EligibleDistinct(s: Sched, es: seq<Executor>, ns: seq<Node>)
    requires DistinctKeys(ns)
    ensures DistinctKeys(EligibleOf(s, es, ns))
    decreases |ns|
  {
    hide Eligible;
    if ns != [] {
      var front := ns[..|ns| - 1];
      EligibleDistinct(s, es, front);
      EligibleMembers(s, es, front);
      forall e | e in EligibleOf(s, es, front)
        ensures KeyOf(e) != KeyOf(ns[|ns| - 1])
      {
        var i :| 0 <= i < |front| && front[i] == e;
        assert ns[i] == e;
      }
    }
  }

  // ---- the runnable order ----

  /** The node lies in the graph and is runnable there, whatever graph it names. */
  predicate RunnableIn(graphs: map<string, Nodes>, ref: string, n: Node) {
    ref in graphs && Runnable(ref, graphs[ref], n.id) && graphs[ref][n.id] == n
  }

  lemma {:induction false} PartMembers(ns: seq<Node>, from: seq<nat>, i: nat)
    requires |ns| == |from|
    ensures forall k :: 0 <= k < |ns| && from[k] == i ==> ns[k] in Part(ns, from, i)
    ensures forall n :: n in Part(ns, from, i) ==> exists k :: 0 <= k < |ns| && from[k] == i && ns[k] == n
    decreases |ns|
  {
    if ns != [] {
      var last := |ns| - 1;
      PartMembers(ns[..last], from[..last], i);
      forall n | n in Part(ns, from, i)
        ensures exists k :: 0 <= k < |ns| && from[k] == i && ns[k] == n
      {
        if n in Part(ns[..last], from[..last], i) {
          var k :| 0 <= k < last && from[..last][k] == i && ns[..last][k] == n;
          assert from[k] == i && ns[k] == n;
        } else {
          assert from[last] == i && ns[last] == n;
        }
      }
      forall k | 0 <= k < |ns| && from[k] == i
        ensures ns[k] in Part(ns, from, i)
      {
        if k < last {
          assert from[..last][k] == i && ns[..last][k] == ns[k];
        }
      }
    }
  }

  lemma {:induction false} SourcesInRange(qs: Queues)
    ensures forall k :: 0 <= k < |Sources(qs)| ==> Sources(qs)[k] < |qs|
    decreases Total(qs)
  {
    hide Heads, HeadSources;
    TotalFalls(qs);
    HeadSourcesInRange(qs);
    if Heads(qs) != [] {
      SourcesInRange(Tails(qs));
    }
  }

  lemma {:induction false} HeadSourcesInRange(qs: Queues)
    ensures forall k :: 0 <= k < |HeadSources(qs)| ==> HeadSources(qs)[k] < |qs|
    decreases |qs|
  {
    if qs != [] {
      HeadSourcesInRange(qs[..|qs| - 1]);
    }
  }

  lemma CandidateMembers(graphs: map<string, Nodes>, ref: string, ns: seq<Node>, n: Node)
    requires Keyed(graphs) && ref in graphs && Candidates(ref, graphs[ref], ns)
    ensures n in ns <==> RunnableIn(graphs, ref, n)
  {
    if n in ns {
      var id :| Runnable(ref, graphs[ref], id) && graphs[ref][id] == n;
      assert n.id == id;
    }
  }

  lemma QueueMembers(graphs: map<string, Nodes>, refs: seq<string>, qs: Queues, i: nat, n: Node)
    requires Keyed(graphs) && IsQueues(graphs, refs, qs) && i < |qs|
    ensures n in qs[i] <==> RunnableIn(graphs, refs[i], n)
  {
    hide Runnable, Keyed;
    CandidateMembers(graphs, refs[i], qs[i], n);
  }

  /** Each place in the order belongs to one graph, and each runnable task has a place. */
  lemma PlaceOf(graphs: map<string, Nodes>, turn: nat, qs: Queues, k: nat)
    requires Keyed(graphs) && IsQueues(graphs, TurnOrder(graphs, turn), qs) && k < |RoundRobin(qs)|
    ensures Sources(qs)[k] < |TurnOrder(graphs, turn)| == |qs|
    ensures RunnableIn(graphs, TurnOrder(graphs, turn)[Sources(qs)[k]], RoundRobin(qs)[k])
  {
    hide RunnableIn, RoundRobin, TurnOrder, Keyed, Part;
    var i := Sources(qs)[k];
    SourcesInRange(qs);
    PartMembers(RoundRobin(qs), Sources(qs), i);
    TurnsKeepEachGraph(qs, i);
    QueueMembers(graphs, TurnOrder(graphs, turn), qs, i, RoundRobin(qs)[k]);
  }

  lemma PlaceFor(graphs: map<string, Nodes>, turn: nat, qs: Queues, ref: string, n: Node) returns (k: nat)
    requires Keyed(graphs) && IsQueues(graphs, TurnOrder(graphs, turn), qs) && RunnableIn(graphs, ref, n)
    ensures k < |RoundRobin(qs)| && RoundRobin(qs)[k] == n
    ensures Sources(qs)[k] < |TurnOrder(graphs, turn)| && TurnOrder(graphs, turn)[Sources(qs)[k]] == ref
  {
    hide Runnable, RoundRobin, TurnOrder, Keyed, Part, Candidates;
    var refs := TurnOrder(graphs, turn);
    TurnOrderIs(graphs, turn);
    var i: nat :| i < |refs| && refs[i] == ref;
    QueueMembers(graphs, refs, qs, i, n);
    TurnsKeepEachGraph(qs, i);
    PartMembers(RoundRobin(qs), Sources(qs), i);
    var m: nat :| m < |RoundRobin(qs)| && Sources(qs)[m] == i && RoundRobin(qs)[m] == n;
    k := m;
  }

  /** Exactly the runnable tasks of all graphs. */
  lemma RunnableOrderMembers(graphs: map<string, Nodes>, turn: nat, qs: Queues, n: Node)
    requires Keyed(graphs) && IsQueues(graphs, TurnOrder(graphs, turn), qs)
    ensures n in RoundRobin(qs) <==> exists ref :: RunnableIn(graphs, ref, n)
  {
    hide RunnableIn, RoundRobin, TurnOrder, Keyed, IsQueues;
    if n in RoundRobin(qs) {
      var k: nat :| k < |RoundRobin(qs)| && RoundRobin(qs)[k] == n;
      PlaceOf(graphs, turn, qs, k);
    }
    if ref :| RunnableIn(graphs, ref, n) {
      var k := PlaceFor(graphs, turn, qs, ref, n);
    }
  }

  /** No two runnable tasks that lie in different graphs name the same graph and have the same id. */
  ghost predicate NamedApart(graphs: map<string, Nodes>) {
    forall r, t, m, n :: RunnableIn(graphs, r, m) && RunnableIn(graphs, t, n) && KeyOf(m) == KeyOf(n) ==> r == t
  }

  lemma {:induction false} PartPlaces(ns: seq<Node>, from: seq<nat>, a: nat, b: nat)
    requires |ns| == |from| && a < b < |ns| && from[a] == from[b]
    ensures var part := Part(ns, from, from[a]);
      exists i, j :: 0 <= i < j < |part| && part[i] == ns[a] && part[j] == ns[b]
  {
    hide Part;
    var q := from[a];
    var front := Part(ns[..b], from[..b], q);
    PartOfPrefix(ns, from, b + 1, q);
    PartLast(ns[..b + 1], from[..b + 1], q);
    assert ns[..b + 1][..b] == ns[..b] && from[..b + 1][..b] == from[..b];
    PartMembers(ns[..b], from[..b], q);
    assert from[..b][a] == q && ns[..b][a] == ns[a];
    var i :| 0 <= i < |front| && front[i] == ns[a];
    assert Part(ns, from, q)[i] == ns[a] && Part(ns, from, q)[|front|] == ns[b];
  }

  lemma PartLast(ns: seq<Node>, from: seq<nat>, i: nat)
    requires |ns| == |from| && ns != [] && from[|ns| - 1] == i
    ensures Part(ns, from, i) == Part(ns[..|ns| - 1], from[..|ns| - 1], i) + [ns[|ns| - 1]]
  {
  }

  /** A queue has no node twice. */
  lemma OncePerQueue(graphs: map<string, Nodes>, turn: nat, qs: Queues, a: nat, b: nat)
    requires Keyed(graphs) && IsQueues(graphs, TurnOrder(graphs, turn), qs)
    requires a < b < |RoundRobin(qs)| && Sources(qs)[a] == Sources(qs)[b]
    ensures RoundRobin(qs)[a] != RoundRobin(qs)[b]
  {
    hide Runnable, RoundRobin, TurnOrder, Keyed, Before, Part, Sources;
    var q := Sources(qs)[a];
    PlaceOf(graphs, turn, qs, a);
    TurnsKeepEachGraph(qs, q);
    PartPlaces(RoundRobin(qs), Sources(qs), a, b);
    var i, j :| 0 <= i < j < |qs[q]| && qs[q][i] == RoundRobin(qs)[a] && qs[q][j] == RoundRobin(qs)[b];
    assert Before(qs[q][i], qs[q][j]);
    NotBeforeItself(qs[q][j]);
  }

  /** The keys of the order are distinct exactly when no runnable tasks of different graphs
      go by the same name: a node may name another graph than the one it lies in. */
  lemma RunnableOrderDistinctIff(graphs: map<string, Nodes>, turn: nat, qs: Queues)
    requires Keyed(graphs) && IsQueues(graphs, TurnOrder(graphs, turn), qs)
    ensures DistinctKeys(RoundRobin(qs)) <==> NamedApart(graphs)
  {
    hide Runnable, RunnableIn, RoundRobin, TurnOrder, Keyed, IsQueues, DistinctKeys;
    if NamedApart(graphs) {
      ApartIsDistinct(graphs, turn, qs);
    }
    if DistinctKeys(RoundRobin(qs)) {
      forall r, t, m, n | RunnableIn(graphs, r, m) && RunnableIn(graphs, t, n) && KeyOf(m) == KeyOf(n)
        ensures r == t
      {
        DistinctIsApart(graphs, turn, qs, r, t, m, n);
      }
    }
  }

  lemma ApartIsDistinct(graphs: map<string, Nodes>, turn: nat, qs: Queues)
    requires Keyed(graphs) && IsQueues(graphs, TurnOrder(graphs, turn), qs) && NamedApart(graphs)
    ensures DistinctKeys(RoundRobin(qs))
  {
    hide Runnable, RoundRobin, TurnOrder, Keyed, IsQueues;
    var all := RoundRobin(qs);
    TurnOrderIs(graphs, turn);
    forall a, b | 0 <= a < b < |all|
      ensures KeyOf(all[a]) != KeyOf(all[b])
    {
      PlaceOf(graphs, turn, qs, a);
      PlaceOf(graphs, turn, qs, b);
      if KeyOf(all[a]) == KeyOf(all[b]) {
        OncePerQueue(graphs, turn, qs, a, b);
      }
    }
  }

  lemma DistinctIsApart(graphs: map<string, Nodes>, turn: nat, qs: Queues, r: string, t: string, m: Node, n: Node)
    requires Keyed(graphs) && IsQueues(graphs, TurnOrder(graphs, turn), qs) && DistinctKeys(RoundRobin(qs))
    requires RunnableIn(graphs, r, m) && RunnableIn(graphs, t, n) && KeyOf(m) == KeyOf(n)
    ensures r == t
  {
    hide Runnable, RunnableIn, RoundRobin, TurnOrder, Keyed, IsQueues;
    TurnOrderIs(graphs, turn);
    var a := PlaceFor(graphs, turn, qs, r, m);
    var b := PlaceFor(graphs, turn, qs, t, n);
  }

  // ---- safety of one pass ----

  ghost predicate GoodItem(s: Sched, es: seq<Executor>, item: Item) {
    item.key == KeyOf(item.node) && (exists ref :: RunnableIn(s.graphs, ref, item.node)) &&
    !InFlight(s, item.key) && AnyMatches(item.node.needs, es)
  }

  /** The queue a task is sent to: the prefix alone when it asks for no capability, and else
      the one named for its first, which some executor that matches it offers. */
  predicate SentRight(prefix: string, es: seq<Executor>, item: Item) {
    if item.node.needs.capabilities == [] then item.queue == prefix
    else
      item.queue == prefix + "." + item.node.needs.capabilities[0] &&
      exists i ::
        0 <= i < |es| && item.node.needs.capabilities[0] in es[i].capabilities && Matches(item.node.needs, es[i])
  }

  lemma {:induction false} QueuesAreRight(s: Sched, prefix: string, es: seq<Executor>, budget: nat, ns: seq<Node>)
    ensures forall item :: item in PlanFor(s, prefix, es, budget, ns).items ==> SentRight(prefix, es, item)
    decreases |ns|
  {
    hide SentRight, AnyMatches, InFlight, Route;
    if ns != [] {
      QueuesAreRight(s, prefix, es, budget, ns[..|ns| - 1]);
      var n := ns[|ns| - 1];
      if AnyMatches(n.needs, es) {
        RouteIsRight(prefix, es, n);
      }
    }
  }

  lemma RouteIsRight(prefix: string, es: seq<Executor>, n: Node)
    requires AnyMatches(n.needs, es)
    ensures SentRight(prefix, es, Item(KeyOf(n), Route(prefix, n.needs), n))
  {
    var i :| 0 <= i < |es| && Matches(n.needs, es[i]);
    if n.needs.capabilities != [] {
      assert n.needs.capabilities[0] in n.needs.capabilities;
      assert n.needs.capabilities[0] in es[i].capabilities;
    }
  }

  /** What is sent: tasks runnable in their graphs, in nobody's hands, each with an executor
      to take it, and no more than the budget; distinct ones, when no two runnable tasks
      go by the same name; and nothing eligible is held back while the budget lasts. */
  lemma PlanIsSafe(s: Sched, prefix: string, es: seq<Executor>, backpressure: real, qs: Queues)
    requires Keyed(s.graphs) && IsQueues(s.graphs, TurnOrder(s.graphs, s.turn), qs)
    ensures var budget := Budget(s, es, backpressure);
      var items := PlanFor(s, prefix, es, budget, RoundRobin(qs)).items;
      |items| <= budget &&
      (NamedApart(s.graphs) ==> forall i, j :: 0 <= i < j < |items| ==> items[i].key != items[j].key) &&
      (forall item :: item in items ==> GoodItem(s, es, item)) &&
      (|items| == budget || forall n :: n in RoundRobin(qs) && Eligible(s, es, n) ==>
        Item(KeyOf(n), Route(prefix, n.needs), n) in items)
  {
    hide RunnableIn, RoundRobin, TurnOrder, Keyed, PlanFor, EligibleOf, IsQueues, AnyMatches, Budget, NamedApart;
    var ns := RoundRobin(qs);
    var budget := Budget(s, es, backpressure);
    var eligible := EligibleOf(s, es, ns);
    PlanIsEligiblePrefix(s, prefix, es, budget, ns);
    EligibleMembers(s, es, ns);
    if NamedApart(s.graphs) {
      RunnableOrderDistinctIff(s.graphs, s.turn, qs);
      EligibleDistinct(s, es, ns);
    }
    var items := PlanFor(s, prefix, es, budget, ns).items;
    forall item | item in items
      ensures GoodItem(s, es, item)
    {
      var i :| 0 <= i < |items| && items[i] == item;
      assert eligible[i] in eligible;
      RunnableOrderMembers(s.graphs, s.turn, qs, eligible[i]);
    }
    if |items| < budget {
      forall n | n in ns && Eligible(s, es, n)
        ensures Item(KeyOf(n), Route(prefix, n.needs), n) in items
      {
        var i :| 0 <= i < |eligible| && eligible[i] == n;
        assert items[i] == Item(KeyOf(n), Route(prefix, n.needs), n);
      }
    }
  }

  predicate Unserved(s: Sched, es: seq<Executor>, ns: seq<Node>, key: Key) {
    exists n :: n in ns && KeyOf(n) == key && !InFlight(s, key) && !AnyMatches(n.needs, es)
  }

  predicate Served(s: Sched, es: seq<Executor>, ns: seq<Node>, key: Key) {
    exists n :: n in ns && KeyOf(n) == key && Eligible(s, es, n)
  }

  /** A task is reported exactly when it is runnable, not in flight, no executor can take
      it, and it was not reported before; one that some executor can take may be reported
      again later. */
  lemma {:induction false} ReportsIff(s: Sched, prefix: string, es: seq<Executor>, budget: nat, ns: seq<Node>)
    requires DistinctKeys(ns)
    ensures var p := PlanFor(s, prefix, es, budget, ns);
      (forall key :: key in p.reports <==> Unserved(s, es, ns, key) && key !in s.blocked) &&
      (forall key :: key in p.blocked <==> key in s.blocked && !Served(s, es, ns, key))
    decreases |ns|
  {
    hide AnyMatches, InFlight;
    if ns != [] {
      var front, last := ns[..|ns| - 1], ns[|ns| - 1];
      ReportsIff(s, prefix, es, budget, front);
      assert ns == front + [last];
      forall key
        ensures Unserved(s, es, ns, key) <==>
          Unserved(s, es, front, key) || (key == KeyOf(last) && !InFlight(s, key) && !AnyMatches(last.needs, es))
        ensures Served(s, es, ns, key) <==> Served(s, es, front, key) || (key == KeyOf(last) && Eligible(s, es, last))
      {
        OneMore(s, es, front, last, key);
      }
      assert !Served(s, es, front, KeyOf(last));
    }
  }

  lemma OneMore(s: Sched, es: seq<Executor>, ns: seq<Node>, n: Node, key: Key)
    ensures Unserved(s, es, ns + [n], key) <==>
      Unserved(s, es, ns, key) || (key == KeyOf(n) && !InFlight(s, key) && !AnyMatches(n.needs, es))
    ensures Served(s, es, ns + [n], key) <==> Served(s, es, ns, key) || (key == KeyOf(n) && Eligible(s, es, n))
  {
    hide AnyMatches, InFlight;
    assert n in ns + [n];
    assert forall m :: m in ns ==> m in ns + [n];
  }

  /** A root with children never runs, and neither does anything whose parent is not closed:
      in a graph with nothing closed and a root above every task, nothing is runnable. */
  lemma OpenRootStallsGraph(ref: string, nodes: Nodes, id: string)
    requires OwnIds(nodes) && HasChildren(nodes, ref)
    requires forall k :: k in nodes ==> nodes[k].status != Closed && (k != ref ==> nodes[k].parent != "")
    ensures !Runnable(ref, nodes, id)
  {
  }
}
