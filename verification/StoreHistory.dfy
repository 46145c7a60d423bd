/** Histories of the crash-recovery store: any number of workers whose Load and Save
    interleave freely, as long as no two of them work on the same task at once (the
    task lock sees to that, and recovery runs before any worker is started). */
module StoreHistory {
  import opened StateStore
  import opened Wrappers

  datatype Op =
    | MarkInFlight(task: TaskId)
    | MarkCompleted(task: TaskId)
    | MarkBlocked(task: TaskId, data: Option<Data>)
    | ClearTerminal(task: TaskId)
    | ClearInFlight(task: TaskId)
    | Recover

  /** What an operation does to its own snapshot between Load and Save. */
  function Change(op: Op, v: View): View {
    match op
    case MarkInFlight(t) => v.(inFlight := v.inFlight + {t})
    case MarkCompleted(t) =>
      v.(inFlight := v.inFlight - {t}, completed := v.completed + {t}, blocked := v.blocked - {t})
    case MarkBlocked(t, data) =>
      View(v.inFlight - {t}, v.completed - {t}, v.blocked + {t},
           if data.Some? then v.taskData[t := data.value] else v.taskData)
    case ClearTerminal(t) =>
      v.(inFlight := v.inFlight - {t}, completed := v.completed - {t}, blocked := v.blocked - {t})
    case ClearInFlight(t) => v.(inFlight := v.inFlight - {t})
    case Recover => View({}, {}, {}, v.taskData)
  }

  /** The operation run with nothing between its Load and its Save. */
  function Atomic(op: Op, v: View): View {
    MergeView(v, v, Change(op, v))
  }

  /** Which set an operation leaves its task in, told task by task: starting adds it to those
      in flight, completing and blocking move it, clearing takes it out of all three, giving
      up takes it out of flight.  Other tasks stay, but for recovery, which empties the sets. */
  lemma OperationMoves(op: Op, v: View, t: TaskId)
    ensures var w := Atomic(op, v);
      match op
      case Recover => t !in w.inFlight && t !in w.completed && t !in w.blocked
      case _ =>
        if op.task != t then
          (t in w.inFlight <==> t in v.inFlight) && (t in w.completed <==> t in v.completed) &&
          (t in w.blocked <==> t in v.blocked)
        else
          (t in w.inFlight <==> op.MarkInFlight?) &&
          (t in w.completed <==> op.MarkCompleted? || ((op.MarkInFlight? || op.ClearInFlight?) && t in v.completed)) &&
          (t in w.blocked <==> op.MarkBlocked? || ((op.MarkInFlight? || op.ClearInFlight?) && t in v.blocked))
  {
  }

  /** Only blocking with data writes data: every key it brings, over what the task had. */
  lemma OperationWrites(op: Op, v: View, t: TaskId)
    ensures var w := Atomic(op, v);
      if op.MarkBlocked? && op.data.Some? && op.task == t then
        t in w.taskData &&
        (forall k :: k in op.data.value ==> k in w.taskData[t] && w.taskData[t][k] == op.data.value[k]) &&
        (forall k :: k !in op.data.value ==>
          (k in w.taskData[t] <==> t in v.taskData && k in v.taskData[t]) &&
          (k in w.taskData[t] && t in v.taskData ==> w.taskData[t][k] == v.taskData[t][k]))
      else (t in w.taskData <==> t in v.taskData) && (t in v.taskData ==> w.taskData[t] == v.taskData[t])
  {
  }

  function AtomicAll(v: View, ops: seq<Op>): View
    decreases |ops|
  {
    if ops == [] then v else AtomicAll(Atomic(ops[0], v), ops[1..])
  }

  predicate Touches(op: Op, t: TaskId) {
    op.Recover? || op.task == t
  }

  predicate Overlap(a: Op, b: Op) {
    a.Recover? || b.Recover? || a.task == b.task
  }

  /** Whether the operation writes the task data of t. */
  predicate WritesData(op: Op, t: TaskId) {
    op.MarkBlocked? && op.data.Some? && op.task == t
  }

  // ---- interleavings ----

  datatype Pending = Pending(op: Op, base: View)
  datatype System = System(file: View, pending: map<nat, Pending>)
  datatype Event = Begin(worker: nat, op: Op) | Commit(worker: nat)

  ghost predicate Enabled(s: System, e: Event) {
    match e
    case Begin(w, op) =>
      w !in s.pending && forall u :: u in s.pending ==> !Overlap(s.pending[u].op, op)
    case Commit(w) => w in s.pending
  }

  ghost function Step(s: System, e: Event): System
    requires Enabled(s, e)
  {
    match e
    case Begin(w, op) => s.(pending := s.pending[w := Pending(op, s.file)])
    case Commit(w) =>
      var p := s.pending[w];
      System(MergeView(s.file, p.base, Change(p.op, p.base)), s.pending - {w})
  }

  ghost predicate Legal(s: System, events: seq<Event>)
    decreases |events|
  {
    events == [] || (Enabled(s, events[0]) && Legal(Step(s, events[0]), events[1..]))
  }

  ghost function Run(s: System, events: seq<Event>): System
    requires Legal(s, events)
    decreases |events|
  {
    if events == [] then s else Run(Step(s, events[0]), events[1..])
  }

  /** The operations of a history in the order of their saves. */
  ghost function SaveOrder(s: System, events: seq<Event>): seq<Op>
    requires Legal(s, events)
    decreases |events|
  {
    if events == [] then [] else
      var rest := SaveOrder(Step(s, events[0]), events[1..]);
      if events[0].Commit? then [s.pending[events[0].worker].op] + rest else rest
  }

  ghost predicate SameOn(a: View, b: View, t: TaskId) {
    (t in a.inFlight <==> t in b.inFlight) &&
    (t in a.completed <==> t in b.completed) &&
    (t in a.blocked <==> t in b.blocked)
  }

  ghost predicate SameSets(a: View, b: View) {
    a.inFlight == b.inFlight && a.completed == b.completed && a.blocked == b.blocked
  }

  /** Every open snapshot still shows the file's own state of the tasks it works on. */
  ghost predicate Coherent(s: System) {
    (forall w :: w in s.pending ==> FreshFor(s.pending[w], s.file)) &&
    (forall w, u :: w in s.pending && u in s.pending && w != u ==> !Overlap(s.pending[w].op, s.pending[u].op))
  }

  ghost predicate FreshFor(p: Pending, file: View) {
    forall t :: Touches(p.op, t) ==> SameOn(p.base, file, t)
  }

  /** The heart of the merge: a save whose snapshot is fresh for its own tasks, and
      arbitrarily stale for all others, writes the sets the atomic operation would. */
  lemma StaleSaveIsAtomic(file: View, p: Pending)
    requires FreshFor(p, file)
    ensures SameSets(MergeView(file, p.base, Change(p.op, p.base)), Atomic(p.op, file))
  {
    hide SameOn, MergeView, Atomic, Change, FreshFor;
    var merged := MergeView(file, p.base, Change(p.op, p.base));
    forall t: TaskId
      ensures SameOn(merged, Atomic(p.op, file), t)
    {
      if Touches(p.op, t) {
        FreshOn(file, p, t);
        SavedAsAtomic(file, p, t);
      } else {
        SavedElsewhere(file, p, t);
        AtomicTouchesOnly(p.op, file, t);
        SameThrough(merged, file, Atomic(p.op, file), t);
      }
    }
    SameEverywhere(merged, Atomic(p.op, file));
  }

  lemma FreshOn(file: View, p: Pending, t: TaskId)
    requires FreshFor(p, file) && Touches(p.op, t)
    ensures SameOn(p.base, file, t)
  {
  }

  lemma SavedAsAtomic(file: View, p: Pending, t: TaskId)
    requires Touches(p.op, t) && SameOn(p.base, file, t)
    ensures SameOn(MergeView(file, p.base, Change(p.op, p.base)), Atomic(p.op, file), t)
  {
  }

  lemma SavedElsewhere(file: View, p: Pending, t: TaskId)
    requires !Touches(p.op, t)
    ensures SameOn(MergeView(file, p.base, Change(p.op, p.base)), file, t)
  {
  }

  lemma SameThrough(a: View, b: View, c: View, t: TaskId)
    requires SameOn(a, b, t) && SameOn(c, b, t)
    ensures SameOn(a, c, t)
  {
  }

  lemma SameEverywhere(a: View, b: View)
    requires forall t :: SameOn(a, b, t)
    ensures SameSets(a, b)
  {
    forall t: TaskId
      ensures (t in a.inFlight <==> t in b.inFlight) && (t in a.completed <==> t in b.completed) &&
        (t in a.blocked <==> t in b.blocked)
    {
      assert SameOn(a, b, t);
    }
  }

  lemma AtomicTouchesOnly(op: Op, file: View, t: TaskId)
    requires !Touches(op, t)
    ensures SameOn(Atomic(op, file), file, t)
  {
  }

  lemma StepKeepsCoherent(s: System, e: Event)
    requires Coherent(s) && Enabled(s, e)
    ensures Coherent(Step(s, e))
    ensures e.Begin? ==> Step(s, e).file == s.file
    ensures e.Commit? ==> SameSets(Step(s, e).file, Atomic(s.pending[e.worker].op, s.file))
  {
    var s' := Step(s, e);
    if e.Commit? {
      var p := s.pending[e.worker];
      StaleSaveIsAtomic(s.file, p);
      forall w | w in s'.pending
        ensures FreshFor(s'.pending[w], s'.file)
      {
        forall t | Touches(s'.pending[w].op, t)
          ensures SameOn(s'.pending[w].base, s'.file, t)
        {
          assert !Overlap(s.pending[w].op, p.op);
          AtomicTouchesOnly(p.op, s.file, t);
          assert SameOn(s.pending[w].base, s.file, t);
        }
      }
    }
  }

  lemma {:induction false} AtomicAllSameSets(a: View, b: View, ops: seq<Op>)
    requires SameSets(a, b)
    ensures SameSets(AtomicAll(a, ops), AtomicAll(b, ops))
    decreases |ops|
  {
    if ops != [] {
      assert SameSets(Atomic(ops[0], a), Atomic(ops[0], b));
      AtomicAllSameSets(Atomic(ops[0], a), Atomic(ops[0], b), ops[1..]);
    }
  }

  /** Serializability of the three sets: whatever the interleaving, the file ends as if
      the operations had run one after the other in the order of their saves. */
  lemma {:induction false} Serializable(s: System, events: seq<Event>)
    requires Coherent(s) && Legal(s, events)
    ensures SameSets(Run(s, events).file, AtomicAll(s.file, SaveOrder(s, events)))
    ensures Coherent(Run(s, events))
    decreases |events|
  {
    if events != [] {
      var e := events[0];
      StepKeepsCoherent(s, e);
      var s' := Step(s, e);
      Serializable(s', events[1..]);
      if e.Commit? {
        var op := s.pending[e.worker].op;
        var ops := SaveOrder(s', events[1..]);
        assert ([op] + ops)[1..] == ops;
        AtomicAllSameSets(s'.file, Atomic(op, s.file), ops);
      }
    }
  }

  // ---- task data ----

  /** Every entry of an open snapshot is the file's entry now, and the snapshot knows
      whether the file has an entry for the task it is about to write. */
  ghost predicate DataFresh(p: Pending, file: View) {
    (forall t :: t in p.base.taskData ==> t in file.taskData && p.base.taskData[t] == file.taskData[t]) &&
    (p.op.MarkBlocked? && p.op.task in file.taskData ==> p.op.task in p.base.taskData)
  }

  ghost predicate DataCoherent(s: System) {
    forall w :: w in s.pending ==> DataFresh(s.pending[w], s.file)
  }

  /** The save writes no task data that another open snapshot already has an entry for. */
  ghost predicate CommitGuarded(s: System, w: nat)
    requires w in s.pending
  {
    forall u, t :: u in s.pending && u != w && WritesData(s.pending[w].op, t) ==> t !in s.pending[u].base.taskData
  }

  ghost predicate DataGuarded(s: System, events: seq<Event>)
    requires Legal(s, events)
    decreases |events|
  {
    events == [] ||
    ((events[0].Commit? ==> CommitGuarded(s, events[0].worker)) && DataGuarded(Step(s, events[0]), events[1..]))
  }

  ghost predicate Within(base: map<TaskId, Data>, file: map<TaskId, Data>) {
    forall t :: t in base ==> t in file && base[t] == file[t]
  }

  lemma UnchangedDataMerge(file: map<TaskId, Data>, base: map<TaskId, Data>)
    requires Within(base, file)
    ensures MergeData(file, base, base) == file
  {
    assert forall t :: t in file ==> file[t] + file[t] == file[t];
  }

  /** Saving one changed entry writes its keys over the entry the file has, if any. */
  lemma WrittenDataMerge(file: map<TaskId, Data>, base: map<TaskId, Data>, t: TaskId, d: Data)
    requires Within(base, file) && (t in file ==> t in base)
    ensures MergeData(file, base, base[t := d]) == file[t := if t in file then file[t] + d else d]
  {
    assert forall u :: u in file ==> file[u] + file[u] == file[u];
  }

  lemma FreshDataSaveIsAtomic(file: View, p: Pending)
    requires FreshFor(p, file) && DataFresh(p, file)
    ensures MergeView(file, p.base, Change(p.op, p.base)) == Atomic(p.op, file)
  {
    StaleSaveIsAtomic(file, p);
    if p.op.MarkBlocked? && p.op.data.Some? {
      WrittenDataMerge(file.taskData, p.base.taskData, p.op.task, p.op.data.value);
      WrittenDataMerge(file.taskData, file.taskData, p.op.task, p.op.data.value);
    } else {
      UnchangedDataMerge(file.taskData, p.base.taskData);
      UnchangedDataMerge(file.taskData, file.taskData);
    }
  }

  /** An atomic operation leaves the data of every task it does not write alone. */
  lemma AtomicDataElsewhere(op: Op, file: View, t: TaskId)
    requires !WritesData(op, t)
    ensures t in Atomic(op, file).taskData <==> t in file.taskData
    ensures t in file.taskData ==> Atomic(op, file).taskData[t] == file.taskData[t]
  {
    if t in file.taskData {
      assert file.taskData[t] + file.taskData[t] == file.taskData[t];
    }
  }

  lemma StepKeepsDataCoherent(s: System, e: Event)
    requires Coherent(s) && DataCoherent(s) && Enabled(s, e)
    requires e.Commit? ==> CommitGuarded(s, e.worker)
    ensures DataCoherent(Step(s, e))
    ensures e.Commit? ==> Step(s, e).file == Atomic(s.pending[e.worker].op, s.file)
  {
    if e.Commit? {
      var p := s.pending[e.worker];
      FreshDataSaveIsAtomic(s.file, p);
      var s' := Step(s, e);
      forall w | w in s'.pending
        ensures DataFresh(s'.pending[w], s'.file)
      {
        var q := s.pending[w];
        assert !Overlap(q.op, p.op) && DataFresh(q, s.file);
        forall t | t in q.base.taskData || (q.op.MarkBlocked? && q.op.task == t)
          ensures t in s'.file.taskData <==> t in s.file.taskData
          ensures t in s.file.taskData ==> s'.file.taskData[t] == s.file.taskData[t]
        {
          AtomicDataElsewhere(p.op, s.file, t);
        }
      }
    }
  }

  /** Serializability of the whole entry: in a guarded history the task data too ends as
      if the operations had run one after the other in the order of their saves. */
  lemma {:induction false} SerializableWithData(s: System, events: seq<Event>)
    requires Coherent(s) && DataCoherent(s) && Legal(s, events) && DataGuarded(s, events)
    ensures Run(s, events).file == AtomicAll(s.file, SaveOrder(s, events))
    decreases |events|
  {
    if events != [] {
      var e := events[0];
      StepKeepsCoherent(s, e);
      StepKeepsDataCoherent(s, e);
      SerializableWithData(Step(s, e), events[1..]);
      if e.Commit? {
        var op := s.pending[e.worker].op;
        var ops := SaveOrder(Step(s, e), events[1..]);
        assert ([op] + ops)[1..] == ops;
      }
    }
  }

  ghost predicate StillCurrent(entry: Data, now: Data) {
    forall key :: key in entry ==> key in now && now[key] == entry[key]
  }

  /** When a save disturbs the data of a task it has nothing to do with: exactly when its
      base holds an entry for that task with a key the file has changed since. */
  lemma StaleSaveHarmlessIff(file: View, p: Pending, t: TaskId)
    requires t in file.taskData && !WritesData(p.op, t)
    ensures t in MergeView(file, p.base, Change(p.op, p.base)).taskData
    ensures MergeView(file, p.base, Change(p.op, p.base)).taskData[t] == file.taskData[t]
       <==> (t in p.base.taskData ==> StillCurrent(p.base.taskData[t], file.taskData[t]))
  {
    if t in p.base.taskData {
      var entry, now := p.base.taskData[t], file.taskData[t];
      if StillCurrent(entry, now) {
        assert now + entry == now;
      } else {
        var key :| key in entry && !(key in now && now[key] == entry[key]);
        assert (now + entry)[key] == entry[key];
      }
    }
  }

  /** The lost update of task data: both workers loaded the old entry of task "a";
      worker 1 saves a new one, and the save of worker 2, about task "b", brings the old
      value back, although run one after the other the new value would stay. */
  lemma StaleDataComesBack()
    ensures
      var first: Data, second: Data := map["triage_reason" := "first"], map["triage_reason" := "second"];
      var before := View({}, {}, {}, map["a" := first]);
      var op1, op2 := MarkBlocked("a", Some(second)), MarkInFlight("b");
      var s := System(before, map[1 := Pending(op1, before), 2 := Pending(op2, before)]);
      Coherent(s) && DataCoherent(s) &&
      "a" in Step(Step(s, Commit(1)), Commit(2)).file.taskData &&
      Step(Step(s, Commit(1)), Commit(2)).file.taskData["a"] == first &&
      "a" in Atomic(op2, Atomic(op1, before)).taskData &&
      Atomic(op2, Atomic(op1, before)).taskData["a"] == second
  {
    hide Coherent, DataCoherent;
    StaleStart();
    StaleSteps();
  }

  lemma StaleStart()
    ensures
      var before := View({}, {}, {}, map["a" := map["triage_reason" := "first"]]);
      var s := System(before, map[
        1 := Pending(MarkBlocked("a", Some(map["triage_reason" := "second"])), before), 2 :=
          Pending(MarkInFlight("b"), before)]);
      Coherent(s) && DataCoherent(s)
  {
  }

  lemma StaleSteps()
    ensures
      var first: Data, second: Data := map["triage_reason" := "first"], map["triage_reason" := "second"];
      var before := View({}, {}, {}, map["a" := first]);
      var op1, op2 := MarkBlocked("a", Some(second)), MarkInFlight("b");
      var s := System(before, map[1 := Pending(op1, before), 2 := Pending(op2, before)]);
      Step(Step(s, Commit(1)), Commit(2)).file.taskData == map["a" := first] &&
      Atomic(op2, Atomic(op1, before)).taskData == map["a" := second]
  {
    hide MergeSet, Overlap, Touches, WritesData;
    var first: Data, second: Data := map["triage_reason" := "first"], map["triage_reason" := "second"];
    assert first + second == second && second + first == first;
    var before := View({}, {}, {}, map["a" := first]);
    var op1, op2 := MarkBlocked("a", Some(second)), MarkInFlight("b");
    WrittenDataMerge(before.taskData, before.taskData, "a", second);
    var middle := Atomic(op1, before);
    assert middle.taskData == map["a" := second];
    UnchangedDataMerge(middle.taskData, middle.taskData);
    assert MergeEntry(middle.taskData, before.taskData, before.taskData, "a") == first;
    var s := System(before, map[1 := Pending(op1, before), 2 := Pending(op2, before)]);
    assert Step(s, Commit(1)) == System(middle, map[2 := Pending(op2, before)]);
  }
}
