/** Task graph diffs (internal/distributed/mastermind.go, buildTaskGraphDiffs) and the
    scheduler that applies them: what is sent brings the receiver up to date. */
module GraphDiff {
  import opened Contracts
  import opened Ordering
  import opened SchedulerGraphs
  import opened Wrappers

  // ---- one graph ----

  /** Node lists as maps: the last of several nodes with the same id counts. */
  function ById(ns: seq<Node>): map<string, Node>
    decreases |ns|
  {
    if ns == [] then map[] else ById(ns[..|ns| - 1])[ns[|ns| - 1].id := ns[|ns| - 1]]
  }

  function Listed(nodes: map<string, Node>, ids: seq<string>): seq<Node>
    requires forall id :: id in ids ==> id in nodes
  {
    if ids == [] then [] else Listed(nodes, ids[..|ids| - 1]) + [nodes[ids[|ids| - 1]]]
  }

  predicate IsChanged(before: map<string, Node>, after: map<string, Node>, id: string) {
    id in after && !(id in before && before[id] == after[id])
  }

  function Changed(before: map<string, Node>, after: map<string, Node>): set<string> {
    set id | id in after && IsChanged(before, after, id)
  }

  function ChangedNodes(before: map<string, Node>, after: map<string, Node>): seq<Node> {
    Listed(after, Sorted(Changed(before, after)))
  }

  function Sorted(ids: set<string>): (r: seq<string>)
    ensures forall id :: id in r <==> id in ids
  {
    assert forall id :: id in SortedKeys(ids) <==> id in Elements(SortedKeys(ids));
    SortedKeys(ids)
  }

  /** Nodes are compared by their encoding, which tells different nodes apart. */
  method DiffTaskGraphNodes(previous: seq<Node>, current: seq<Node>) returns (upsert: seq<Node>, deleted: seq<string>)
    ensures upsert == ChangedNodes(ById(previous), ById(current))
    ensures deleted == Sorted(ById(previous).Keys - ById(current).Keys)
  {
    hide SortedKeys, Ascending, Elements;
    var previousById := CollectById(previous);
    var currentById := CollectById(current);
    var changed: set<string> := {};
    var left := currentById.Keys;
    while left != {}
      invariant forall id :: id in left ==> id in currentById
      invariant forall id :: id in changed <==> id !in left && IsChanged(previousById, currentById, id)
      decreases |left|
    {
      var id :| id in left;
      left := left - {id};
      if id in previousById && previousById[id] == currentById[id] {
        continue;
      }
      changed := changed + {id};
    }
    assert changed == Changed(previousById, currentById);
    var ids := Sorted(changed);
    upsert := [];
    var i := 0;
    while i < |ids|
      invariant 0 <= i <= |ids|
      invariant (forall id :: id in ids[..i] ==> id in currentById) && upsert == Listed(currentById, ids[..i])
    {
      assert ids[i] in ids;
      assert ids[..i + 1][..i] == ids[..i] && ids[..i + 1] == ids[..i] + [ids[i]];
      upsert := upsert + [currentById[ids[i]]];
      i := i + 1;
    }
    assert ids[..|ids|] == ids;
    deleted := Sorted(previousById.Keys - currentById.Keys);
  }

  method CollectById(ns: seq<Node>) returns (nodes: map<string, Node>)
    ensures nodes == ById(ns)
  {
    nodes := map[];
    var i := 0;
    while i < |ns|
      invariant 0 <= i <= |ns|
      invariant nodes == ById(ns[..i])
    {
      assert ns[..i + 1][..i] == ns[..i];
      nodes := nodes[ns[i].id := ns[i]];
      i := i + 1;
    }
    assert ns[..|ns|] == ns;
  }

  // ---- all graphs ----

  function Ids(ns: seq<Node>): (ids: seq<string>)
    ensures |ids| == |ns| && forall i :: 0 <= i < |ns| ==> ids[i] == ns[i].id
  {
    if ns == [] then [] else Ids(ns[..|ns| - 1]) + [ns[|ns| - 1].id]
  }

  function DiffOf(previous: map<string, Snapshot>, current: map<string, Snapshot>, key: string): Option<Diff>
    requires key in previous || key in current
  {
    if key !in current then Some(Diff(previous[key].ref, [], SortedList(Ids(previous[key].nodes))))
    else if key !in previous then Some(Diff(current[key].ref, current[key].nodes, []))
    else
      var before, after := ById(previous[key].nodes), ById(current[key].nodes);
      if ChangedNodes(before, after) == [] && Sorted(before.Keys - after.Keys) == [] then None
      else Some(Diff(current[key].ref, ChangedNodes(before, after), Sorted(before.Keys - after.Keys)))
  }

  predicate AllKeys(previous: map<string, Snapshot>, current: map<string, Snapshot>, order: seq<string>) {
    forall key :: key in order ==> key in previous || key in current
  }

  function DiffsAlong(previous: map<string, Snapshot>, current: map<string, Snapshot>, order: seq<string>): seq<Diff>
    requires AllKeys(previous, current, order)
    decreases |order|
  {
    if order == [] then [] else
      var front := DiffsAlong(previous, current, order[..|order| - 1]);
      match DiffOf(previous, current, order[|order| - 1])
      case None => front
      case Some(d) => front + [d]
  }

  function InsertDiff(d: Diff, ds: seq<Diff>): seq<Diff> {
    if ds == [] || !Less(ds[0].ref, d.ref) then [d] + ds else [ds[0]] + InsertDiff(d, ds[1..])
  }

  function SortedDiffs(ds: seq<Diff>): seq<Diff> {
    if ds == [] then [] else InsertDiff(ds[0], SortedDiffs(ds[1..]))
  }

  ghost predicate Collected(previous: map<string, Snapshot>, current: map<string, Snapshot>, order: seq<string>,
                            seen: set<string>, diffs: seq<Diff>) {
    IsList(order, seen) && AllKeys(previous, current, order) && diffs == DiffsAlong(previous, current, order)
  }

  lemma Collect(previous: map<string, Snapshot>, current: map<string, Snapshot>, order: seq<string>, seen: set<string>,
                diffs: seq<Diff>, key: string)
    requires Collected(previous, current, order, seen, diffs) && key !in seen && (key in previous || key in current)
    ensures var diff := DiffOf(previous, current, key);
      Collected(previous, current, order + [key], seen + {key}, if diff.None? then diffs else diffs + [diff.value])
  {
    hide DiffOf;
    assert (order + [key])[..|order|] == order;
    assert forall i :: 0 <= i < |order| ==> order[i] in Elements(order);
  }

  /** The diffs of every graph that was added, changed or removed, once each; the graphs
      are visited in whatever order the maps yield them, and the result is sorted. */
  method BuildTaskGraphDiffs(previous: map<string, Snapshot>, current: map<string, Snapshot>)
    returns (diffs: seq<Diff>, ghost order: seq<string>)
    ensures IsList(order, previous.Keys + current.Keys) && AllKeys(previous, current, order)
    ensures diffs == SortedDiffs(DiffsAlong(previous, current, order))
    ensures AllDiffs(previous, current, diffs)
  {
    hide SortedList, Sorted, ById, ChangedNodes, Collected, SortedDiffs, DiffsAlong, AllDiffs;
    diffs, order := [], [];
    ghost var seen: set<string> := {};
    var left := current.Keys;
    NoneCollected(previous, current);
    while left != {}
      invariant forall key :: key in current <==> key in left || key in seen
      invariant forall key :: key in left ==> key !in seen
      invariant Collected(previous, current, order, seen, diffs)
      decreases |left|
    {
      var key :| key in left;
      Collect(previous, current, order, seen, diffs, key);
      left, order, seen := left - {key}, order + [key], seen + {key};
      var currentGraph := current[key];
      if key !in previous {
        diffs := diffs + [Diff(currentGraph.ref, currentGraph.nodes, [])];
        continue;
      }
      var upsert, deleted := DiffTaskGraphNodes(previous[key].nodes, currentGraph.nodes);
      if |upsert| == 0 && |deleted| == 0 {
        continue;
      }
      diffs := diffs + [Diff(currentGraph.ref, upsert, deleted)];
    }
    left := previous.Keys;
    while left != {}
      invariant forall key :: key in left ==> key in previous
      invariant forall key :: key in seen <==> key in current || (key in previous && key !in left)
      invariant Collected(previous, current, order, seen, diffs)
      decreases |left|
    {
      var key :| key in left;
      left := left - {key};
      if key in current {
        continue;
      }
      Collect(previous, current, order, seen, diffs, key);
      order, seen := order + [key], seen + {key};
      var previousGraph := previous[key];
      diffs := diffs + [Diff(previousGraph.ref, [], SortedList(Ids(previousGraph.nodes)))];
    }
    AllCollected(previous, current, order, seen, diffs);
    diffs := SortedDiffs(diffs);
  }

  lemma KeysInOrder(previous: map<string, Snapshot>, current: map<string, Snapshot>, order: seq<string>,
                    along: seq<Diff>, diffs: seq<Diff>)
    requires IsList(order, previous.Keys + current.Keys) &&
      forall key :: key in order ==> HasDiff(previous, current, key, along)
    requires forall d :: d in along ==> d in diffs
    ensures forall key :: key in previous || key in current ==> HasDiff(previous, current, key, diffs)
  {
    hide DiffOf;
    forall key | key in previous || key in current
      ensures HasDiff(previous, current, key, diffs)
    {
      assert key in Elements(order);
      assert HasDiff(previous, current, key, along);
    }
  }

  lemma NoneCollected(previous: map<string, Snapshot>, current: map<string, Snapshot>)
    ensures Collected(previous, current, [], {}, [])
  {
  }

  lemma AllCollected(previous: map<string, Snapshot>, current: map<string, Snapshot>, order: seq<string>,
                     seen: set<string>, diffs: seq<Diff>)
    requires Collected(previous, current, order, seen, diffs)
    requires forall key :: key in seen <==> key in current || key in previous
    ensures IsList(order, previous.Keys + current.Keys) && AllKeys(previous, current, order)
    ensures diffs == DiffsAlong(previous, current, order)
    ensures AllDiffs(previous, current, SortedDiffs(diffs))
  {
    hide DiffOf, HasDiff, IsDiff, SortedDiffs, DiffsAlong;
    assert seen == previous.Keys + current.Keys;
    DiffMembers(previous, current, order);
    SortMembers(diffs);
    KeysInOrder(previous, current, order, diffs, SortedDiffs(diffs));
  }

  // ---- patching ----

  lemma {:induction false} InsertMembers(d: Diff, ds: seq<Diff>)
    ensures forall e :: e in InsertDiff(d, ds) <==> e == d || e in ds
  {
    if !(ds == [] || !Less(ds[0].ref, d.ref)) {
      InsertMembers(d, ds[1..]);
      assert ds == [ds[0]] + ds[1..];
    }
  }

  lemma {:induction false} SortMembers(ds: seq<Diff>)
    ensures forall e :: e in SortedDiffs(ds) <==> e in ds
  {
    if ds != [] {
      SortMembers(ds[1..]);
      assert ds == [ds[0]] + ds[1..];
      InsertMembers(ds[0], SortedDiffs(ds[1..]));
    }
  }

  predicate ByRef(ds: seq<Diff>) {
    forall i, j :: 0 <= i < j < |ds| ==> !Less(ds[j].ref, ds[i].ref)
  }

  lemma {:induction false} InsertKeepsOrder(d: Diff, ds: seq<Diff>)
    requires ByRef(ds)
    ensures ByRef(InsertDiff(d, ds))
  {
    hide Less;
    if ds != [] {
      if Less(ds[0].ref, d.ref) {
        InsertKeepsOrder(d, ds[1..]);
        InsertMembers(d, ds[1..]);
        LaterNotBefore(d, ds);
      } else {
        EarlierInserted(d, ds);
      }
    }
  }

  lemma LaterNotBefore(d: Diff, ds: seq<Diff>)
    requires ds != [] && ByRef(ds) && Less(ds[0].ref, d.ref) && ByRef(InsertDiff(d, ds[1..]))
    requires forall e :: e in InsertDiff(d, ds[1..]) <==> e == d || e in ds[1..]
    ensures ByRef([ds[0]] + InsertDiff(d, ds[1..]))
  {
    hide Less, InsertDiff;
    var rest := InsertDiff(d, ds[1..]);
    forall e | e in rest
      ensures !Less(e.ref, ds[0].ref)
    {
      if e == d {
        if Less(d.ref, ds[0].ref) {
          LessTransitive(d.ref, ds[0].ref, d.ref);
          LessIrreflexive(d.ref);
        }
      } else {
        var k :| 0 <= k < |ds[1..]| && ds[1..][k] == e;
        assert ds[k + 1] == e;
      }
    }
    assert forall k :: 0 <= k < |rest| ==> rest[k] in rest;
  }

  lemma EarlierInserted(d: Diff, ds: seq<Diff>)
    requires ds != [] && ByRef(ds) && !Less(ds[0].ref, d.ref)
    ensures ByRef([d] + ds)
  {
    hide Less;
    forall k | 0 <= k < |ds|
      ensures !Less(ds[k].ref, d.ref)
    {
      LessTotal(ds[0].ref, d.ref);
      if Less(ds[k].ref, d.ref) && k > 0 {
        if ds[0].ref != d.ref {
          LessTransitive(ds[k].ref, d.ref, ds[0].ref);
        }
      }
    }
  }

  /** The diffs are sent in the order of their refs. */
  lemma {:induction false} SentByRef(ds: seq<Diff>)
    ensures ByRef(SortedDiffs(ds))
    decreases |ds|
  {
    hide Less, InsertDiff;
    if ds != [] {
      SentByRef(ds[1..]);
      InsertKeepsOrder(ds[0], SortedDiffs(ds[1..]));
    }
  }

  /** The diff changes or removes that task of that graph. */
  predicate Touches(d: Diff, ref: string, id: string) {
    d.ref == ref && ref != "" && id != "" && (id in ById(d.upserts) || id in d.deletes)
  }

  predicate SameAt(a: Nodes, b: Nodes, id: string) {
    (id in a <==> id in b) && (id in a && id in b ==> a[id] == b[id])
  }

  lemma PatchElsewhere(graphs: map<string, Nodes>, d: Diff, ref: string, id: string)
    requires !Touches(d, ref, id)
    ensures SameAt(NodesAt(Patch(graphs, d), ref), NodesAt(graphs, ref), id)
  {
    hide Upserted, ById;
    UpsertedIs(NodesAt(graphs, d.ref), d.ref, d.upserts, id);
  }

  /** What a diff makes of a task does not depend on what was there. */
  lemma PatchSettles(a: map<string, Nodes>, b: map<string, Nodes>, d: Diff, ref: string, id: string)
    requires Touches(d, ref, id)
    ensures SameAt(NodesAt(Patch(a, d), ref), NodesAt(Patch(b, d), ref), id)
  {
    hide Upserted, ById;
    UpsertedIs(NodesAt(a, ref), ref, d.upserts, id);
    UpsertedIs(NodesAt(b, ref), ref, d.upserts, id);
  }

  lemma PatchLocal(a: map<string, Nodes>, b: map<string, Nodes>, d: Diff, ref: string, id: string)
    requires SameAt(NodesAt(a, ref), NodesAt(b, ref), id)
    ensures SameAt(NodesAt(Patch(a, d), ref), NodesAt(Patch(b, d), ref), id)
  {
    hide Touches, Patch;
    if Touches(d, ref, id) {
      PatchSettles(a, b, d, ref, id);
    } else {
      PatchElsewhere(a, d, ref, id);
      PatchElsewhere(b, d, ref, id);
    }
  }

  lemma {:induction false} Untouched(graphs: map<string, Nodes>, ds: seq<Diff>, ref: string, id: string)
    requires forall d :: d in ds ==> !Touches(d, ref, id)
    ensures SameAt(NodesAt(PatchAll(graphs, ds), ref), NodesAt(graphs, ref), id)
    decreases |ds|
  {
    hide Patch, NodesAt, Touches;
    if ds != [] {
      var front, last := ds[..|ds| - 1], ds[|ds| - 1];
      Untouched(graphs, front, ref, id);
      PatchElsewhere(PatchAll(graphs, front), last, ref, id);
    }
  }

  /** A task that one diff touches, and no other, is left as that diff makes it. */
  lemma {:induction false} TouchedByOne(graphs: map<string, Nodes>, ds: seq<Diff>, d: Diff, ref: string, id: string)
    requires d in ds && forall e :: e in ds && Touches(e, ref, id) ==> e == d
    ensures SameAt(NodesAt(PatchAll(graphs, ds), ref), NodesAt(Patch(graphs, d), ref), id)
    decreases |ds|
  {
    hide Patch, NodesAt, Touches;
    var front, last := ds[..|ds| - 1], ds[|ds| - 1];
    assert ds == front + [last];
    if last == d && Touches(d, ref, id) {
      PatchSettles(PatchAll(graphs, front), graphs, d, ref, id);
    } else if d in front {
      TouchedByOne(graphs, front, d, ref, id);
      if !Touches(last, ref, id) {
        PatchElsewhere(PatchAll(graphs, front), last, ref, id);
      }
    } else {
      Untouched(graphs, front, ref, id);
      PatchElsewhere(PatchAll(graphs, front), d, ref, id);
      PatchElsewhere(graphs, d, ref, id);
    }
  }

  // ---- the graphs as the mastermind keys them ----

  function RefOf(previous: map<string, Snapshot>, current: map<string, Snapshot>, key: string): string
    requires key in previous || key in current
  {
    if key in current then current[key].ref else previous[key].ref
  }

  /** The graph of that key has the task, before or after, and goes by that ref. */
  predicate Carries(previous: map<string, Snapshot>, current: map<string, Snapshot>, key: string, ref: string,
                    id: string) {
    (key in previous || key in current) && RefOf(previous, current, key) == ref &&
    ((key in previous && id in ById(previous[key].nodes)) || (key in current && id in ById(current[key].nodes)))
  }

  predicate Steady(previous: map<string, Snapshot>, current: map<string, Snapshot>, key: string) {
    (key in previous || key in current) && RefOf(previous, current, key) != "" &&
    (key in previous && key in current ==> previous[key].ref == current[key].ref)
  }

  ghost predicate IsDiff(previous: map<string, Snapshot>, current: map<string, Snapshot>, d: Diff) {
    exists key :: (key in previous || key in current) && DiffOf(previous, current, key) == Some(d)
  }

  predicate HasDiff(previous: map<string, Snapshot>, current: map<string, Snapshot>, key: string, ds: seq<Diff>) {
    (key in previous || key in current) &&
    (DiffOf(previous, current, key).Some? ==> DiffOf(previous, current, key).value in ds)
  }

  /** Nothing but the diffs of the keys, and all of them. */
  lemma {:induction false} DiffMembers(previous: map<string, Snapshot>, current: map<string, Snapshot>,
                                       order: seq<string>)
    requires AllKeys(previous, current, order)
    ensures forall d :: d in DiffsAlong(previous, current, order) ==> IsDiff(previous, current, d)
    ensures forall key :: key in order ==> HasDiff(previous, current, key, DiffsAlong(previous, current, order))
    decreases |order|
  {
    hide DiffOf;
    if order != [] {
      var front, last := order[..|order| - 1], order[|order| - 1];
      DiffMembers(previous, current, front);
      assert order == front + [last];
      var before, after := DiffsAlong(previous, current, front), DiffsAlong(previous, current, order);
      forall key | key in order
        ensures HasDiff(previous, current, key, after)
      {
        assert key != last ==> HasDiff(previous, current, key, before);
      }
      forall d | d in after
        ensures IsDiff(previous, current, d)
      {
        assert d in before || DiffOf(previous, current, last) == Some(d);
      }
    }
  }

  lemma RefOfDiff(previous: map<string, Snapshot>, current: map<string, Snapshot>, key: string)
    requires (key in previous || key in current) && DiffOf(previous, current, key).Some?
    ensures DiffOf(previous, current, key).value.ref == RefOf(previous, current, key)
  {
  }

  /** The nodes a snapshot of a graph stands for. */
  function Meant(ref: string, ns: seq<Node>): Nodes {
    Upserted(map[], ref, ns)
  }

  predicate UpsertedAt(base: Nodes, ref: string, nodes: map<string, Node>, id: string, r: Nodes) {
    if id in nodes && id != "" then id in r && r[id] == Filled(ref, nodes[id])
    else (id in r <==> id in base) && (id in r ==> r[id] == base[id])
  }

  lemma {:induction false} UpsertedIs(base: Nodes, ref: string, ns: seq<Node>, id: string)
    ensures UpsertedAt(base, ref, ById(ns), id, Upserted(base, ref, ns))
    decreases |ns|
  {
    if ns != [] {
      UpsertedIs(base, ref, ns[..|ns| - 1], id);
    }
  }

  lemma {:induction false} ListedById(nodes: map<string, Node>, ids: seq<string>, id: string)
    requires (forall i :: i in ids ==> i in nodes) && forall i :: i in nodes ==> nodes[i].id == i
    ensures id in ById(Listed(nodes, ids)) <==> id in ids
    ensures id in ids ==> ById(Listed(nodes, ids))[id] == nodes[id]
    decreases |ids|
  {
    hide ById;
    if ids == [] {
      NothingById();
    } else {
      var front := ids[..|ids| - 1];
      var last := ids[|ids| - 1];
      assert ids == front + [last];
      ListedById(nodes, front, id);
      OneMoreById(Listed(nodes, front), nodes[last]);
    }
  }

  lemma NothingById()
    ensures ById([]) == map[]
  {
  }

  lemma OneMoreById(ns: seq<Node>, n: Node)
    ensures ById(ns + [n]) == ById(ns)[n.id := n]
  {
    assert (ns + [n])[..|ns|] == ns;
  }

  lemma {:induction false} ByIdIs(ns: seq<Node>)
    ensures forall id :: id in ById(ns) ==> ById(ns)[id].id == id
    ensures forall id :: id in ById(ns) <==> id in Ids(ns)
    decreases |ns|
  {
    if ns != [] {
      ByIdIs(ns[..|ns| - 1]);
    }
  }

  /** Patching what a graph was with its diff gives what it is. */
  lemma DiffThenPatch(ref: string, before: seq<Node>, after: seq<Node>)
    ensures Upserted(Meant(ref, before), ref, ChangedNodes(ById(before), ById(after)))
      - Removed(Sorted(ById(before).Keys - ById(after).Keys)) == Meant(ref, after)
  {
    hide Upserted, ById, Sorted, ChangedNodes;
    var changes := ChangedNodes(ById(before), ById(after));
    var gone := Removed(Sorted(ById(before).Keys - ById(after).Keys));
    var result := Upserted(Meant(ref, before), ref, changes) - gone;
    forall id
      ensures SameAt(result, Meant(ref, after), id)
    {
      DiffThenPatchAt(ref, before, after, id);
    }
    SameEverywhere(result, Meant(ref, after));
  }

  lemma SameEverywhere(a: Nodes, b: Nodes)
    requires forall id :: SameAt(a, b, id)
    ensures a == b
  {
    assert forall id :: id in a ==> SameAt(a, b, id);
    assert forall id :: id in b ==> SameAt(a, b, id);
  }

  lemma DiffThenPatchAt(ref: string, before: seq<Node>, after: seq<Node>, id: string)
    ensures SameAt(
      Upserted(Meant(ref, before), ref, ChangedNodes(ById(before), ById(after)))
        - Removed(Sorted(ById(before).Keys - ById(after).Keys)),
      Meant(ref, after), id)
  {
    hide Upserted, ById, SortedKeys, Sorted, Listed;
    var b, a := ById(before), ById(after);
    ByIdIs(after);
    UpsertedIs(map[], ref, before, id);
    UpsertedIs(map[], ref, after, id);
    UpsertedIs(Meant(ref, before), ref, ChangedNodes(b, a), id);
    ListedById(a, Sorted(Changed(b, a)), id);
    assert id in Removed(Sorted(b.Keys - a.Keys)) <==> id in b && id !in a && id != "";
  }

  lemma RemoveAll(ref: string, before: seq<Node>)
    ensures Meant(ref, before) - Removed(SortedList(Ids(before))) == map[]
  {
    hide SortedList, Ids, Upserted, ById;
    SortedListMembers(Ids(before));
    ByIdIs(before);
    forall id | id in Meant(ref, before)
      ensures id in Removed(SortedList(Ids(before)))
    {
      UpsertedIs(map[], ref, before, id);
    }
  }

  /** What the graph of a key stands for in these snapshots. */
  function MeantBy(snapshots: map<string, Snapshot>, key: string): Nodes {
    if key in snapshots then Meant(snapshots[key].ref, snapshots[key].nodes) else map[]
  }

  ghost predicate AllDiffs(previous: map<string, Snapshot>, current: map<string, Snapshot>, diffs: seq<Diff>) {
    (forall d :: d in diffs ==> IsDiff(previous, current, d)) &&
    forall key :: key in previous || key in current ==> HasDiff(previous, current, key, diffs)
  }

  /** Diff, then patch, task by task: where the receiver held what the previous snapshot of a
      graph meant, it holds what the current one means, whatever becomes of other tasks and
      graphs; only no second graph under the same ref may have a task of the same id. */
  lemma DiffsBringUpToDate(graphs: map<string, Nodes>, previous: map<string, Snapshot>, current: map<string, Snapshot>,
                           diffs: seq<Diff>, key: string, id: string)
    requires AllDiffs(previous, current, diffs) && Steady(previous, current, key)
    requires var ref := RefOf(previous, current, key);
      SameAt(NodesAt(graphs, ref), MeantBy(previous, key), id) &&
      forall k :: Carries(previous, current, k, ref, id) ==> k == key
    ensures SameAt(NodesAt(PatchAll(graphs, diffs), RefOf(previous, current, key)), MeantBy(current, key), id)
  {
    hide DiffOf, Patch, PatchAll, Upserted, Meant, Carries, Touches;
    var ref := RefOf(previous, current, key);
    assert HasDiff(previous, current, key, diffs);
    forall d | d in diffs && Touches(d, ref, id)
      ensures DiffOf(previous, current, key) == Some(d)
    {
      var k :| (k in previous || k in current) && DiffOf(previous, current, k) == Some(d);
      TouchesCarried(previous, current, k, ref, id);
    }
    match DiffOf(previous, current, key)
    case None =>
      Untouched(graphs, diffs, ref, id);
      NoChange(previous, current, key);
    case Some(d) =>
      TouchedByOne(graphs, diffs, d, ref, id);
      PatchLocal(graphs, map[ref := MeantBy(previous, key)], d, ref, id);
      OnePatch(previous, current, key);
  }

  lemma TouchesCarried(previous: map<string, Snapshot>, current: map<string, Snapshot>, key: string, ref: string,
                       id: string)
    requires (key in previous || key in current) && DiffOf(previous, current, key).Some?
    requires Touches(DiffOf(previous, current, key).value, ref, id)
    ensures Carries(previous, current, key, ref, id)
  {
    hide ById, Ids, SortedList, SortedKeys, Listed;
    RefOfDiff(previous, current, key);
    if key !in current {
      SortedListMembers(Ids(previous[key].nodes));
      ByIdIs(previous[key].nodes);
      NothingById();
    } else if key in previous {
      ByIdIs(current[key].nodes);
      var b, a := ById(previous[key].nodes), ById(current[key].nodes);
      ListedById(a, Sorted(Changed(b, a)), id);
    }
  }

  /** A graph that shares its ref with no other one is brought up to date as a whole. */
  lemma GraphBroughtUpToDate(graphs: map<string, Nodes>, previous: map<string, Snapshot>,
                             current: map<string, Snapshot>, diffs: seq<Diff>, key: string)
    requires AllDiffs(previous, current, diffs) && Steady(previous, current, key)
    requires NodesAt(graphs, RefOf(previous, current, key)) == MeantBy(previous, key)
    requires forall k ::
      (k in previous || k in current) && RefOf(previous, current, k) == RefOf(previous, current, key) ==> k == key
    ensures NodesAt(PatchAll(graphs, diffs), RefOf(previous, current, key)) == MeantBy(current, key)
  {
    hide PatchAll, DiffOf, MeantBy, NodesAt;
    var ref := RefOf(previous, current, key);
    forall id
      ensures SameAt(NodesAt(PatchAll(graphs, diffs), ref), MeantBy(current, key), id)
    {
      DiffsBringUpToDate(graphs, previous, current, diffs, key, id);
    }
    SameEverywhere(NodesAt(PatchAll(graphs, diffs), ref), MeantBy(current, key));
  }

  /** Tasks that no graph under their ref has are left alone. */
  lemma OthersStay(graphs: map<string, Nodes>, previous: map<string, Snapshot>, current: map<string, Snapshot>,
                   diffs: seq<Diff>, ref: string, id: string)
    requires AllDiffs(previous, current, diffs) && forall k :: !Carries(previous, current, k, ref, id)
    ensures SameAt(NodesAt(PatchAll(graphs, diffs), ref), NodesAt(graphs, ref), id)
  {
    hide DiffOf, PatchAll, Carries, Touches;
    forall d | d in diffs
      ensures !Touches(d, ref, id)
    {
      var k :| (k in previous || k in current) && DiffOf(previous, current, k) == Some(d);
      if Touches(d, ref, id) {
        TouchesCarried(previous, current, k, ref, id);
      }
    }
    Untouched(graphs, diffs, ref, id);
  }

  /** Two sources with the same root id share a ref. When one of them goes, a task of the
      other is kept exactly when the one that goes has no task of that id. */
  lemma RemovalKeepsIff(graphs: map<string, Nodes>, previous: map<string, Snapshot>, diffs: seq<Diff>, gone: string,
                        key: string, id: string)
    requires gone in previous && key in previous && key != gone && previous[key].ref == previous[gone].ref != ""
    requires AllDiffs(previous, previous - {gone}, diffs)
    requires id in MeantBy(previous, key) && id in NodesAt(graphs, previous[key].ref)
    ensures id in NodesAt(PatchAll(graphs, diffs), previous[key].ref) <==> id !in ById(previous[gone].nodes)
  {
    hide DiffOf, Patch, PatchAll, Upserted, ById, Touches;
    var current := previous - {gone};
    var ref := previous[key].ref;
    assert HasDiff(previous, current, gone, diffs);
    UpsertedIs(map[], ref, previous[key].nodes, id);
    GoneDiff(graphs, previous, gone, id);
    var d := DiffOf(previous, current, gone).value;
    forall e | e in diffs && Touches(e, ref, id)
      ensures e == d
    {
      var k :| (k in previous || k in current) && DiffOf(previous, current, k) == Some(e);
      if k != gone {
        Unchanged(previous, current, k);
      }
    }
    TouchedByOne(graphs, diffs, d, ref, id);
  }

  lemma Unchanged(previous: map<string, Snapshot>, current: map<string, Snapshot>, key: string)
    requires key in previous && key in current && previous[key] == current[key]
    ensures DiffOf(previous, current, key).None?
  {
    hide ById;
    var nodes := ById(current[key].nodes);
    assert Changed(nodes, nodes) == {} && nodes.Keys - nodes.Keys == {};
    NothingSorted();
  }

  lemma NothingSorted()
    ensures Sorted({}) == []
  {
    var r := Sorted({});
    assert forall i :: 0 <= i < |r| ==> r[i] in r;
  }

  lemma GoneDiff(graphs: map<string, Nodes>, previous: map<string, Snapshot>, gone: string, id: string)
    requires gone in previous && previous[gone].ref != "" && id != "" && id in NodesAt(graphs, previous[gone].ref)
    ensures var diff := DiffOf(previous, previous - {gone}, gone);
      diff.Some? &&
      (id in NodesAt(Patch(graphs, diff.value), previous[gone].ref) <==> id !in ById(previous[gone].nodes))
  {
    hide ById, Upserted, SortedList, Ids;
    SortedListMembers(Ids(previous[gone].nodes));
    ByIdIs(previous[gone].nodes);
    NoUpserts(NodesAt(graphs, previous[gone].ref), previous[gone].ref);
  }

  lemma NoChange(previous: map<string, Snapshot>, current: map<string, Snapshot>, key: string)
    requires (key in previous || key in current) && DiffOf(previous, current, key).None?
    ensures key in previous && key in current
    ensures forall ref :: Meant(ref, previous[key].nodes) == Meant(ref, current[key].nodes)
  {
    hide Upserted, ById, Sorted, ChangedNodes, SortedList, Ids;
    forall ref
      ensures Meant(ref, previous[key].nodes) == Meant(ref, current[key].nodes)
    {
      DiffThenPatch(ref, previous[key].nodes, current[key].nodes);
      NoUpserts(Meant(ref, previous[key].nodes), ref);
      NoneRemoved(Meant(ref, previous[key].nodes));
    }
  }

  lemma OnePatch(previous: map<string, Snapshot>, current: map<string, Snapshot>, key: string)
    requires Steady(previous, current, key) && DiffOf(previous, current, key).Some?
    ensures var ref := RefOf(previous, current, key);
      NodesAt(Patch(map[ref := MeantBy(previous, key)], DiffOf(previous, current, key).value), ref) ==
        MeantBy(current, key)
  {
    hide Upserted, ById, Sorted, ChangedNodes, SortedList, Ids;
    var ref := RefOf(previous, current, key);
    if key !in current {
      RemoveAll(ref, previous[key].nodes);
      NoUpserts(MeantBy(previous, key), ref);
    } else if key !in previous {
      NoneRemoved(Meant(ref, current[key].nodes));
    } else {
      DiffThenPatch(ref, previous[key].nodes, current[key].nodes);
    }
  }

  lemma NoneRemoved(nodes: Nodes)
    ensures nodes - Removed([]) == nodes
  {
    assert Removed([]) == {};
  }

  lemma NoUpserts(nodes: Nodes, ref: string)
    ensures Upserted(nodes, ref, []) == nodes
  {
  }

  // ---- what the scheduler makes of snapshots and diffs ----

  predicate Unfinished(graphs: map<string, Nodes>, key: Key) {
    key.0 in graphs && key.1 in graphs[key.0] &&
    graphs[key.0][key.1].status in {TaskStatus.Open, TaskStatus.InProgress}
  }

  /** The last of the nodes with that id, as the list has them. */
  predicate LastNode(ns: seq<Node>, j: nat, id: string) {
    j < |ns| && ns[j].id == id && forall k :: j < k < |ns| ==> ns[k].id != id
  }

  lemma {:induction false} LastNodeCounts(ns: seq<Node>, j: nat, id: string)
    requires LastNode(ns, j, id)
    ensures id in ById(ns) && ById(ns)[id] == ns[j]
    decreases |ns|
  {
    if j < |ns| - 1 {
      LastNodeCounts(ns[..|ns| - 1], j, id);
    }
  }

  lemma NoNodeNoEntry(ns: seq<Node>, id: string)
    requires forall j :: 0 <= j < |ns| ==> ns[j].id != id
    ensures id !in ById(ns)
  {
    hide ById;
    ByIdIs(ns);
  }

  /** The last snapshot of that graph. */
  predicate LastOf(snaps: seq<Snapshot>, i: nat, ref: string) {
    i < |snaps| && snaps[i].ref == ref && forall k :: i < k < |snaps| ==> snaps[k].ref != ref
  }

  lemma OneMoreLoaded(graphs: map<string, Nodes>, snaps: seq<Snapshot>, ref: string)
    requires snaps != []
    ensures var n := |snaps| - 1;
      NodesAt(Loaded(graphs, snaps), ref) ==
        if snaps[n].ref == ref then Meant(ref, snaps[n].nodes) else NodesAt(Loaded(graphs, snaps[..n]), ref)
  {
    hide Upserted;
  }

  lemma {:induction false} LoadedAt(graphs: map<string, Nodes>, snaps: seq<Snapshot>, ref: string, i: nat)
    requires LastOf(snaps, i, ref)
    ensures NodesAt(Loaded(graphs, snaps), ref) == Meant(ref, snaps[i].nodes)
    decreases |snaps|
  {
    hide Loaded, Meant;
    OneMoreLoaded(graphs, snaps, ref);
    if i < |snaps| - 1 {
      LoadedAt(graphs, snaps[..|snaps| - 1], ref, i);
    }
  }

  lemma {:induction false} NotLoaded(graphs: map<string, Nodes>, snaps: seq<Snapshot>, ref: string)
    requires forall k :: 0 <= k < |snaps| ==> snaps[k].ref != ref
    ensures NodesAt(Loaded(graphs, snaps), ref) == NodesAt(graphs, ref)
    decreases |snaps|
  {
    hide Meant;
    if snaps != [] {
      OneMoreLoaded(graphs, snaps, ref);
      NotLoaded(graphs, snaps[..|snaps| - 1], ref);
    }
  }

  /** After a snapshot a graph holds the nodes of the last one sent for it and no others: of
      several with one id the last, put under the graph's name when it names none. */
  lemma SnapshotReplaces(s: Sched, snaps: seq<Snapshot>, i: nat, id: string)
    requires (forall k :: 0 <= k < |snaps| ==> snaps[k].ref != "") && i < |snaps| && LastOf(snaps, i, snaps[i].ref)
    ensures var ref, ns := snaps[i].ref, snaps[i].nodes;
      var nodes := NodesAt(AfterSnapshot(s, snaps).graphs, ref);
      (id in nodes <==> id != "" && exists j: nat :: LastNode(ns, j, id)) &&
      (forall j: nat :: LastNode(ns, j, id) && id != "" ==>
        id in nodes && nodes[id] == if ns[j].graph == "" then ns[j].(graph := ref) else ns[j])
  {
    hide Loaded, ById, Upserted;
    var ref, ns := snaps[i].ref, snaps[i].nodes;
    LoadedAt(s.graphs, snaps, ref, i);
    UpsertedIs(map[], ref, ns, id);
    forall j: nat | LastNode(ns, j, id)
      ensures id in ById(ns) && ById(ns)[id] == ns[j]
    {
      LastNodeCounts(ns, j, id);
    }
    if forall j: nat :: !LastNode(ns, j, id) {
      NoLastNode(ns, id);
      NoNodeNoEntry(ns, id);
    }
  }

  lemma {:induction false} NoLastNode(ns: seq<Node>, id: string)
    requires forall j: nat :: !LastNode(ns, j, id)
    ensures forall j :: 0 <= j < |ns| ==> ns[j].id != id
    decreases |ns|
  {
    if ns != [] {
      var n := |ns| - 1;
      assert !LastNode(ns, n, id);
      forall j: nat
        ensures !LastNode(ns[..n], j, id)
      {
        assert !LastNode(ns, j, id);
      }
      NoLastNode(ns[..n], id);
      assert forall j :: 0 <= j < n ==> ns[..n][j] == ns[j];
    }
  }

  /** Graphs no snapshot names stay, and one blank name discards the lot. */
  lemma SnapshotLeaves(s: Sched, snaps: seq<Snapshot>, ref: string)
    ensures (forall k :: 0 <= k < |snaps| ==> snaps[k].ref != ref) ==>
      NodesAt(AfterSnapshot(s, snaps).graphs, ref) == NodesAt(s.graphs, ref)
    ensures (exists k :: 0 <= k < |snaps| && snaps[k].ref == "") ==> AfterSnapshot(s, snaps) == s
  {
    hide Loaded;
    if forall k :: 0 <= k < |snaps| ==> snaps[k].ref != ref {
      NotLoaded(s.graphs, snaps, ref);
    }
  }

  /** A diff takes out what it deletes even when it brings it as well, and otherwise brings the
      last node of the id; other tasks of the graph stay. */
  lemma DiffPatches(graphs: map<string, Nodes>, d: Diff, id: string)
    requires d.ref != ""
    ensures var before, after := NodesAt(graphs, d.ref), NodesAt(Patch(graphs, d), d.ref);
      (id != "" && id in d.deletes ==> id !in after) &&
      (forall j: nat :: LastNode(d.upserts, j, id) && id != "" && id !in d.deletes ==>
        id in after && after[id] == if d.upserts[j].graph == "" then d.upserts[j].(graph := d.ref) else d.upserts[j]) &&
      ((id == "" || id !in d.deletes) && (id == "" || forall j: nat :: !LastNode(d.upserts, j, id)) ==>
        SameAt(after, before, id))
  {
    hide ById, Upserted;
    var before := NodesAt(graphs, d.ref);
    UpsertedIs(before, d.ref, d.upserts, id);
    forall j: nat | LastNode(d.upserts, j, id)
      ensures id in ById(d.upserts) && ById(d.upserts)[id] == d.upserts[j]
    {
      LastNodeCounts(d.upserts, j, id);
    }
    if forall j: nat :: !LastNode(d.upserts, j, id) {
      NoLastNode(d.upserts, id);
      NoNodeNoEntry(d.upserts, id);
    }
  }

  lemma {:induction false} DeletedIsGone(ds: seq<Diff>, i: nat, id: string)
    requires i < |ds| && ds[i].ref != "" && id != "" && id in ds[i].deletes
    ensures (ds[i].ref, id) in AllRemovedKeys(ds)
    decreases |ds|
  {
    if i < |ds| - 1 {
      DeletedIsGone(ds[..|ds| - 1], i, id);
    }
  }

  lemma {:induction false} GoneWasDeleted(ds: seq<Diff>, key: Key)
    requires key in AllRemovedKeys(ds)
    ensures exists i :: 0 <= i < |ds| && IsDeleted(ds[i], key)
    decreases |ds|
  {
    var n := |ds| - 1;
    if key in AllRemovedKeys(ds[..n]) {
      GoneWasDeleted(ds[..n], key);
      var i :| 0 <= i < n && IsDeleted(ds[..n][i], key);
      assert IsDeleted(ds[i], key);
    } else {
      assert IsDeleted(ds[n], key);
    }
  }

  predicate IsDeleted(d: Diff, key: Key) {
    d.ref == key.0 != "" && key.1 != "" && key.1 in d.deletes
  }

  /** What the scheduler still remembers of a task after diffs: what it did before, if no
      diff deleted the task on the way and it is open or in progress now. */
  lemma RememberedIff(s: Sched, ds: seq<Diff>, key: Key)
    ensures var t := AfterDiff(s, ds);
      var kept := Unfinished(t.graphs, key) && forall i :: 0 <= i < |ds| ==> !IsDeleted(ds[i], key);
      (key in t.enqueued <==> key in s.enqueued && kept) && (key in t.inProgress <==> key in s.inProgress && kept) &&
      (key in t.blocked <==> key in s.blocked && kept)
  {
    hide PatchAll;
    if key in AllRemovedKeys(ds) {
      GoneWasDeleted(ds, key);
    }
    if i :| 0 <= i < |ds| && IsDeleted(ds[i], key) {
      DeletedIsGone(ds, i, key.1);
    }
  }

  lemma SnapshotRemembersIff(s: Sched, snaps: seq<Snapshot>, key: Key)
    requires forall k :: 0 <= k < |snaps| ==> snaps[k].ref != ""
    ensures var t := AfterSnapshot(s, snaps);
      (key in t.enqueued <==> key in s.enqueued && Unfinished(t.graphs, key)) &&
      (key in t.inProgress <==> key in s.inProgress && Unfinished(t.graphs, key)) &&
      (key in t.blocked <==> key in s.blocked && Unfinished(t.graphs, key))
  {
    hide Loaded;
  }
}
