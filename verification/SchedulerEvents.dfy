/** What monitor events do to the tasks of the distributed scheduler
    (internal/distributed/mastermind_scheduler.go, schedulerApplyMonitorEvent), told by the
    nodes themselves and by which tasks can be planned afterwards. */
module SchedulerEvents {
  import opened Contracts
  import opened SchedulerGraphs
  import opened SchedulerPlan

  predicate Knows(s: Sched, key: Key) {
    key.0 in s.graphs && key.1 in s.graphs[key.0]
  }

  /** Every node is the same in both, but for the one under that key. */
  predicate SameNodesBut(a: map<string, Nodes>, b: map<string, Nodes>, key: Key) {
    a.Keys == b.Keys && forall r :: r in a ==>
      a[r].Keys == b[r].Keys && forall id :: id in a[r] && (r, id) != key ==> a[r][id] == b[r][id]
  }

  ghost predicate SameKeysBut(a: set<Key>, b: set<Key>, key: Key) {
    forall k :: k != key ==> (k in a <==> k in b)
  }

  /** A completed task is closed and forgotten, a failed one blocked, a started one in
      progress; a task that was reported blocked stays so unless it completes; and nothing
      else changes. */
  lemma EventIs(s: Sched, e: MonitorEvent, ref: string)
    requires ref != "" && !e.happened.Other?
    ensures var t := AfterEvent(s, e, ref); var key := (ref, e.task);
      SameNodesBut(s.graphs, t.graphs, key) && SameKeysBut(s.enqueued, t.enqueued, key) &&
      SameKeysBut(s.inProgress, t.inProgress, key) && SameKeysBut(s.blocked, t.blocked, key) && t.turn == s.turn &&
      key !in t.enqueued && (key in t.inProgress <==> e.happened.Started?) &&
      (key in t.blocked <==> key in s.blocked && !e.happened.Completed?) &&
      (IsNews(s, e, ref) <==> !(e.happened.Started? && key in s.inProgress))
    ensures var t := AfterEvent(s, e, ref); var key := (ref, e.task);
      Knows(s, key) ==>
        (e.happened.Started? ==> t.graphs[ref][e.task] == s.graphs[ref][e.task].(status := InProgress)) &&
        (e.happened.Completed? ==> t.graphs[ref][e.task] == s.graphs[ref][e.task].(status := Closed)) &&
        (e.happened.Failed? ==> t.graphs[ref][e.task] == s.graphs[ref][e.task].(status := Blocked))
  {
  }

  lemma NoEventNoChange(s: Sched, e: MonitorEvent, ref: string)
    requires ref == "" || e.happened.Other?
    ensures AfterEvent(s, e, ref) == s
  {
  }

  // ---- what can be planned afterwards ----

  predicate DependsOn(n: Node, task: string) {
    task != "" && (n.parent == task || task in n.dependencies)
  }

  /** Open, not a root with children, and everything it depends on but that task is closed. */
  predicate WaitsOnlyFor(ref: string, nodes: Nodes, id: string, task: string)
    requires id in nodes
  {
    nodes[id].status == Open && !(nodes[id].id == ref && HasChildren(nodes, nodes[id].id)) &&
    (nodes[id].parent != "" && nodes[id].parent != task ==> ClosedIn(nodes, nodes[id].parent)) &&
    forall d :: d in nodes[id].dependencies && d != "" && d != task ==> ClosedIn(nodes, d)
  }

  lemma SameChildren(a: map<string, Nodes>, b: map<string, Nodes>, key: Key, id: string)
    requires SameNodesBut(a, b, key) && key.0 in a
    requires key.1 in a[key.0] ==> b[key.0][key.1] == a[key.0][key.1].(status := b[key.0][key.1].status)
    ensures HasChildren(a[key.0], id) <==> HasChildren(b[key.0], id)
  {
    var x, y := a[key.0], b[key.0];
    assert forall k :: k in x ==> x[k].parent == y[k].parent;
    if HasChildren(x, id) {
      var k :| k in x && x[k].parent == id;
      assert k in y && y[k].parent == id;
    }
    if HasChildren(y, id) {
      var k :| k in y && y[k].parent == id;
      assert k in x && x[k].parent == id;
    }
  }

  /** A completion releases exactly the nodes that waited for nothing else; the completed
      task itself is not planned again. */
  lemma CompletionReleases(s: Sched, e: MonitorEvent, ref: string, id: string)
    requires ref != "" && e.happened.Completed? && e.task != "" && Knows(s, (ref, e.task)) && id in s.graphs[ref]
    ensures var nodes := AfterEvent(s, e, ref).graphs[ref];
      id in nodes && (Runnable(ref, nodes, id) <==> id != e.task && WaitsOnlyFor(ref, s.graphs[ref], id, e.task))
  {
    hide HasChildren, AfterEvent;
    EventIs(s, e, ref);
    var before: map<string, Nodes>, after: map<string, Nodes> := s.graphs, AfterEvent(s, e, ref).graphs;
    SameChildren(before, after, (ref, e.task), before[ref][id].id);
    forall d | d != e.task
      ensures ClosedIn(after[ref], d) <==> ClosedIn(before[ref], d)
    {
    }
    assert ClosedIn(after[ref], e.task);
  }

  /** After a start or a failure neither the task nor anything that depends on it can be
      planned; other nodes can be if they could before. */
  lemma NothingOnUnfinished(s: Sched, e: MonitorEvent, ref: string, id: string)
    requires ref != "" && (e.happened.Started? || e.happened.Failed?) && e.task != ""
    requires Knows(s, (ref, e.task)) && id in s.graphs[ref]
    ensures var nodes := AfterEvent(s, e, ref).graphs[ref];
      id in nodes && (Runnable(ref, nodes, id) <==>
        id != e.task && !DependsOn(s.graphs[ref][id], e.task) && Runnable(ref, s.graphs[ref], id))
  {
    hide HasChildren, AfterEvent;
    EventIs(s, e, ref);
    var before: map<string, Nodes>, after: map<string, Nodes> := s.graphs, AfterEvent(s, e, ref).graphs;
    SameChildren(before, after, (ref, e.task), before[ref][id].id);
    forall d | d != e.task
      ensures ClosedIn(after[ref], d) <==> ClosedIn(before[ref], d)
    {
    }
    assert !ClosedIn(after[ref], e.task);
  }

  /** Other graphs keep what is runnable in them. */
  lemma OtherGraphsStay(s: Sched, e: MonitorEvent, ref: string, r: string)
    requires r != ref && r in s.graphs
    ensures r in AfterEvent(s, e, ref).graphs && AfterEvent(s, e, ref).graphs[r] == s.graphs[r]
  {
  }

  // ---- any number of reports ----

  datatype Report = Report(event: MonitorEvent, ref: string)

  function Play(s: Sched, rs: seq<Report>): Sched {
    if rs == [] then s else
      var last := rs[|rs| - 1];
      AfterEvent(Play(s, rs[..|rs| - 1]), last.event, last.ref)
  }

  predicate IsAbout(r: Report, key: Key) {
    (r.ref, r.event.task) == key && !r.event.happened.Other?
  }

  /** The last report about the task, if there is one. */
  function LastReport(rs: seq<Report>, key: Key): (last: int)
    ensures -1 <= last < |rs|
    ensures last >= 0 ==> IsAbout(rs[last], key)
    ensures forall k :: last < k < |rs| ==> !IsAbout(rs[k], key)
  {
    if rs == [] then -1
    else if IsAbout(rs[|rs| - 1], key) then |rs| - 1
    else LastReport(rs[..|rs| - 1], key)
  }

  /** In any run of reports the last one about a task decides its status, and nothing else
      of its node ever changes. */
  lemma {:induction false} LastReportDecides(s: Sched, rs: seq<Report>, key: Key)
    requires key.0 != "" && Knows(s, key)
    ensures var t := Play(s, rs); var i := LastReport(rs, key);
      Knows(t, key) && t.graphs[key.0][key.1] == s.graphs[key.0][key.1].(status := t.graphs[key.0][key.1].status) &&
      (i < 0 ==> t.graphs[key.0][key.1].status == s.graphs[key.0][key.1].status) &&
      (i >= 0 ==> match rs[i].event.happened
        case Started => t.graphs[key.0][key.1].status == InProgress
        case Completed => t.graphs[key.0][key.1].status == Closed
        case Failed => t.graphs[key.0][key.1].status == Blocked
        case Other => false)
    decreases |rs|
  {
    hide AfterEvent;
    if rs != [] {
      var n := |rs| - 1;
      var before, last := Play(s, rs[..n]), rs[n];
      LastReportDecides(s, rs[..n], key);
      LastIndex(rs, key);
      if last.ref == "" || last.event.happened.Other? {
        NoEventNoChange(before, last.event, last.ref);
      } else {
        EventIs(before, last.event, last.ref);
      }
    }
  }

  lemma LastIndex(rs: seq<Report>, key: Key)
    requires rs != []
    ensures var i := LastReport(rs, key);
      if IsAbout(rs[|rs| - 1], key) then i == |rs| - 1 else i == LastReport(rs[..|rs| - 1], key) < |rs| - 1
  {
  }

  /** So what is planned stands on completed work: in any run of reports a runnable node has
      only dependencies whose last report is their completion, or that were closed before
      and never reported since. */
  lemma RunnableOnCompleted(s: Sched, rs: seq<Report>, ref: string, id: string, d: string)
    requires ref in s.graphs && ref != "" && id in s.graphs[ref] && ref in Play(s, rs).graphs && d in s.graphs[ref]
    requires Runnable(ref, Play(s, rs).graphs[ref], id) && DependsOn(s.graphs[ref][id], d)
    ensures var i := LastReport(rs, (ref, d));
      if i < 0 then s.graphs[ref][d].status == Closed else rs[i].event.happened.Completed?
  {
    hide Play, LastReport, HasChildren;
    LastReportDecides(s, rs, (ref, id));
    LastReportDecides(s, rs, (ref, d));
    assert ClosedIn(Play(s, rs).graphs[ref], d);
  }
}
