/** The crash-recovery file of the agent loop (internal/agent/scheduler_state.go).
    Workers load a snapshot, change it, and save it; the lock is free in between, so
    Save merges what the file holds now with what the worker changed since its Load. */
module StateStore {
  import opened Ordering
  import opened Wrappers

  type TaskId = s: string | s != "" witness "task"
  type Data = map<string, string>

  /** One parent's entry as it is written: sorted lists. */
  datatype ParentState = ParentState(
    inFlight: seq<string>, completed: seq<string>, blocked: seq<string>, taskData: map<TaskId, Data>)

  /** The same entry as it is worked on. */
  datatype View = View(
    inFlight: set<TaskId>, completed: set<TaskId>, blocked: set<TaskId>, taskData: map<TaskId, Data>)

  /** What Load hands out: a working copy and the base it was taken from. */
  datatype Snapshot = Snapshot(view: View, base: View)

  const EMPTY_VIEW := View({}, {}, {}, map[])

  function MakeSet(values: seq<string>): set<TaskId> {
    set v: TaskId | v in values
  }

  function ViewOf(state: ParentState): View {
    View(MakeSet(state.inFlight), MakeSet(state.completed), MakeSet(state.blocked), state.taskData)
  }

  function Written(view: View): ParentState {
    ParentState(SortedKeys(view.inFlight), SortedKeys(view.completed), SortedKeys(view.blocked), view.taskData)
  }

  /** What one parent's entry means; a parent without an entry is empty. */
  function ParentView(parents: map<string, ParentState>, parent: string): View {
    if parent in parents then ViewOf(parents[parent]) else EMPTY_VIEW
  }

  lemma WrittenRoundTrip(view: View)
    ensures ViewOf(Written(view)) == view
  {
    SortedRoundTrip(view.inFlight);
    SortedRoundTrip(view.completed);
    SortedRoundTrip(view.blocked);
  }

  lemma SortedRoundTrip(s: set<TaskId>)
    ensures MakeSet(SortedKeys(s)) == s
  {
    var keys := SortedKeys(s);
    assert Elements(keys) == s;
    assert forall k: TaskId :: k in MakeSet(keys) <==> k in Elements(keys);
  }

  // ---- three-way merges ----

  function MergeSet(current: set<TaskId>, base: set<TaskId>, next: set<TaskId>): set<TaskId> {
    (current - (base - next)) + (next - base)
  }

  function MergeEntry(current: map<TaskId, Data>, base: map<TaskId, Data>, next: map<TaskId, Data>, t: TaskId): Data
    requires t in next || t in current
  {
    if t !in next then current[t]
    else if t !in base then next[t]
    else (if t in current then current[t] else map[]) + next[t]
  }

  function MergeData(current: map<TaskId, Data>, base: map<TaskId, Data>, next: map<TaskId, Data>): map<TaskId, Data> {
    map t | t in next.Keys + (current.Keys - base.Keys) :: MergeEntry(current, base, next, t)
  }

  function MergeView(current: View, base: View, next: View): View {
    View(
      MergeSet(current.inFlight, base.inFlight, next.inFlight),
      MergeSet(current.completed, base.completed, next.completed),
      MergeSet(current.blocked, base.blocked, next.blocked),
      MergeData(current.taskData, base.taskData, next.taskData))
  }

  /** The three-way law, id by id: a worker's own change wins, everything else keeps
      what the file holds now.  Without a base the working copy is taken whole. */
  method MergeSetChanges(current: set<TaskId>, base: Option<set<TaskId>>, next: set<TaskId>)
    returns (merged: set<TaskId>)
    ensures base.None? ==> merged == next
    ensures base.Some? ==> forall t ::
      t in merged <==> if (t in base.value) == (t in next) then t in current else t in next
    ensures base.Some? ==> merged == MergeSet(current, base.value, next)
  {
    if base.None? {
      return next;
    }
    merged := current;
    var left := base.value;
    while left != {}
      invariant left <= base.value
      invariant merged == current - ((base.value - left) - next)
    {
      var key :| key in left;
      left := left - {key};
      if key !in next {
        merged := merged - {key};
      }
    }
    left := next;
    while left != {}
      invariant left <= next
      invariant merged == (current - (base.value - next)) + ((next - left) - base.value)
    {
      var key :| key in left;
      left := left - {key};
      if key !in base.value {
        merged := merged + {key};
      }
    }
  }

  /** The merge of the task data: removed ids go, new ids are taken whole, and for an
      id already in the base every key of the working copy is written over the entry. */
  method MergeTaskDataChanges(current: map<TaskId, Data>, base: Option<map<TaskId, Data>>, next: map<TaskId, Data>)
    returns (merged: map<TaskId, Data>)
    ensures base.None? ==> merged == next
    ensures base.Some? ==> merged == MergeData(current, base.value, next)
  {
    if base.None? {
      return next;
    }
    var kept := DropRemoved(current, base.value.Keys, next.Keys);
    merged := kept;
    var left := next.Keys;
    while left != {}
      invariant left <= next.Keys
      invariant merged.Keys == kept.Keys + (next.Keys - left)
      invariant forall t :: t in merged && t !in next.Keys - left ==> merged[t] == current[t]
      invariant forall t :: t in next.Keys - left ==> merged[t] == MergeEntry(current, base.value, next, t)
    {
      var key :| key in left;
      left := left - {key};
      if key !in base.value {
        merged := merged[key := next[key]];
      } else {
        var entry := if key in merged then merged[key] else map[];
        merged := merged[key := entry + next[key]];
      }
    }
    MergeDataPointwise(merged, current, base.value, next);
  }

  lemma MergeDataPointwise(merged: map<TaskId, Data>, current: map<TaskId, Data>, base: map<TaskId, Data>,
                           next: map<TaskId, Data>)
    requires merged.Keys == current.Keys - (base.Keys - next.Keys) + next.Keys
    requires forall t :: t in merged ==> merged[t] == MergeEntry(current, base, next, t)
    ensures merged == MergeData(current, base, next)
  {
    assert merged.Keys == MergeData(current, base, next).Keys;
  }

  /** The first loop of the data merge: ids of the base that the working copy lost. */
  method DropRemoved(current: map<TaskId, Data>, base: set<TaskId>, next: set<TaskId>) returns (kept: map<TaskId, Data>)
    ensures kept.Keys == current.Keys - (base - next)
    ensures forall t :: t in kept ==> kept[t] == current[t]
  {
    kept := current;
    var left := base;
    while left != {}
      invariant left <= base
      invariant kept.Keys == current.Keys - ((base - left) - next)
      invariant forall t :: t in kept ==> kept[t] == current[t]
    {
      var key :| key in left;
      left := left - {key};
      if key !in next {
        kept := kept - {key};
      }
    }
  }

  /** The store of one parent over the shared state file. */
  class Store {
    const parentID: string
    var parents: map<string, ParentState>

    constructor (parent: string, file: map<string, ParentState>)
      ensures parentID == parent && parents == file
    {
      parentID := parent;
      parents := file;
    }

    function Current(): View
      reads this
    {
      ParentView(parents, parentID)
    }

    method Load() returns (snapshot: Snapshot)
      ensures snapshot == Snapshot(Current(), Current())
    {
      var view := if parentID in parents then ViewOf(parents[parentID]) else EMPTY_VIEW;
      snapshot := Snapshot(view, view);
    }

    /** Reading the entry back gives the merge of all three views; the entries of the
        other parents stay as they were. */
    method Save(snapshot: Snapshot)
      modifies this
      ensures Current() == MergeView(old(Current()), snapshot.base, snapshot.view)
      ensures parents.Keys == old(parents.Keys) + {parentID}
      ensures forall p :: p in old(parents) && p != parentID ==> parents[p] == old(parents[p])
    {
      var current := Current();
      var inFlight := MergeSetChanges(current.inFlight, Some(snapshot.base.inFlight), snapshot.view.inFlight);
      var completed := MergeSetChanges(current.completed, Some(snapshot.base.completed), snapshot.view.completed);
      var blocked := MergeSetChanges(current.blocked, Some(snapshot.base.blocked), snapshot.view.blocked);
      var taskData := MergeTaskDataChanges(current.taskData, Some(snapshot.base.taskData), snapshot.view.taskData);
      var merged := View(inFlight, completed, blocked, taskData);
      WrittenRoundTrip(merged);
      parents := parents[parentID := Written(merged)];
    }
  }
}
