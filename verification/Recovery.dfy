/** The agent loop's own use of the store: the mark and clear operations of a worker,
    recovery at the start of a run, and the life of a run between two crashes. */
module Recovery {
  import opened Contracts
  import opened StateStore
  import opened StoreHistory
  import opened Wrappers

  /** The task backend, which serves a number of calls unknown to the caller and fails
      the next one: recovery may stop at any point. */
  class TaskBackend {
    var status: map<TaskId, TaskStatus>
    var data: map<TaskId, Data>
    var served: nat

    method SetTaskStatus(t: TaskId, to: TaskStatus) returns (ok: bool)
      modifies this
      ensures ok == (old(served) > 0) && data == old(data)
      ensures status == if ok then old(status)[t := to] else old(status)
    {
      ok := served > 0;
      if ok {
        status := status[t := to];
        served := served - 1;
      }
    }

    method SetTaskData(t: TaskId, to: Data) returns (ok: bool)
      modifies this
      ensures ok == (old(served) > 0) && status == old(status)
      ensures data == if ok then old(data)[t := to] else old(data)
    {
      ok := served > 0;
      if ok {
        data := data[t := to];
        served := served - 1;
      }
    }
  }

  const DEFAULT_BLOCKED_DATA: Data := map["triage_status" := "blocked"]

  function Known(v: View): set<TaskId> {
    v.inFlight + v.completed + v.blocked
  }

  /** The status recovery leaves a task with. */
  function RecoveredAs(v: View, t: TaskId): TaskStatus {
    if t in v.inFlight then Open else if t in v.blocked then Blocked else Closed
  }

  function SetAll(status: map<TaskId, TaskStatus>, ids: set<TaskId>, to: TaskStatus): map<TaskId, TaskStatus> {
    status + map t | t in ids :: to
  }

  function RecoveredStatus(status: map<TaskId, TaskStatus>, v: View): map<TaskId, TaskStatus> {
    status + map t | t in Known(v) :: RecoveredAs(v, t)
  }

  function RecoveredData(data: map<TaskId, Data>, v: View): map<TaskId, Data> {
    RestoredData(data, v, v.blocked)
  }

  function RestoredData(data: map<TaskId, Data>, v: View, ids: set<TaskId>): map<TaskId, Data> {
    data + map t | t in ids :: RestoredAs(v, t)
  }

  function RestoredAs(v: View, t: TaskId): Data {
    if t in v.taskData then v.taskData[t] else DEFAULT_BLOCKED_DATA
  }

  /** What the guards of the last loop are written for: a task on record as completed or
      blocked is not reopened. */
  function Intended(v: View, t: TaskId): TaskStatus {
    if t in v.blocked then Blocked else if t in v.completed then Closed else Open
  }

  ghost predicate Exclusive(v: View) {
    v.inFlight !! v.completed !! v.blocked
  }

  /** The guards never fire, because the sets they look at are empty by then: recovery
      does what they are written for exactly for the tasks that do not need them. */
  lemma GuardsVacuousIff(v: View, t: TaskId)
    requires t in Known(v)
    ensures RecoveredAs(v, t) == Intended(v, t) <==> !(t in v.inFlight && (t in v.completed || t in v.blocked))
  {
  }

  lemma ExclusiveRecovery(v: View, t: TaskId)
    requires Exclusive(v) && t in Known(v)
    ensures RecoveredAs(v, t) == Intended(v, t)
    ensures RecoveredAs(v, t) == Closed <==> t in v.completed
    ensures RecoveredAs(v, t) == Blocked <==> t in v.blocked
    ensures RecoveredAs(v, t) == Open <==> t in v.inFlight
  {
    GuardsVacuousIff(v, t);
  }

  class Loop {
    const store: Store
    const tasks: TaskBackend

    constructor (store: Store, tasks: TaskBackend)
      ensures this.store == store && this.tasks == tasks
    {
      this.store, this.tasks := store, tasks;
    }

    method MarkTaskInFlight(t: TaskId)
      modifies store
      ensures store.Current() == Atomic(MarkInFlight(t), old(store.Current()))
    {
      var snapshot := store.Load();
      var view := snapshot.view;
      view := view.(inFlight := view.inFlight + {t});
      store.Save(snapshot.(view := view));
    }

    method MarkTaskCompleted(t: TaskId)
      modifies store
      ensures store.Current() == Atomic(MarkCompleted(t), old(store.Current()))
    {
      var snapshot := store.Load();
      var view := snapshot.view;
      view := view.(inFlight := view.inFlight - {t});
      view := view.(completed := view.completed + {t});
      view := view.(blocked := view.blocked - {t});
      store.Save(snapshot.(view := view));
    }

    method MarkTaskBlockedWithData(t: TaskId, data: Option<Data>)
      modifies store
      ensures store.Current() == Atomic(MarkBlocked(t, data), old(store.Current()))
    {
      var snapshot := store.Load();
      var view := snapshot.view;
      view := view.(inFlight := view.inFlight - {t});
      view := view.(blocked := view.blocked + {t});
      view := view.(completed := view.completed - {t});
      if data.Some? {
        view := view.(taskData := view.taskData[t := data.value]);
      }
      store.Save(snapshot.(view := view));
    }

    method ClearTaskTerminalState(t: TaskId)
      modifies store
      ensures store.Current() == Atomic(ClearTerminal(t), old(store.Current()))
    {
      var snapshot := store.Load();
      var view := snapshot.view;
      view := view.(inFlight := view.inFlight - {t});
      view := view.(completed := view.completed - {t});
      view := view.(blocked := view.blocked - {t});
      store.Save(snapshot.(view := view));
    }

    method ClearTaskInFlight(t: TaskId)
      modifies store
      ensures store.Current() == Atomic(ClearInFlight(t), old(store.Current()))
    {
      var snapshot := store.Load();
      var view := snapshot.view;
      view := view.(inFlight := view.inFlight - {t});
      store.Save(snapshot.(view := view));
    }

    /** The first loop of recovery; `done` are the ids it got to. */
    method CloseCompleted(ids: set<TaskId>) returns (ok: bool, ghost done: set<TaskId>)
      modifies tasks
      ensures done <= ids && (ok ==> done == ids)
      ensures tasks.status == SetAll(old(tasks.status), done, Closed) && tasks.data == old(tasks.data)
    {
      ok, done := true, {};
      var left := ids;
      while left != {}
        invariant left <= ids && done == ids - left && ok
        invariant tasks.status == SetAll(old(tasks.status), done, Closed) && tasks.data == old(tasks.data)
        decreases left
      {
        var t :| t in left;
        SetAllStep(old(tasks.status), done, t, Closed);
        ok := tasks.SetTaskStatus(t, Closed);
        if !ok { return; }
        left := left - {t};
        done := done + {t};
      }
    }

    /** The second loop: the status first, then the data kept for the task. */
    method BlockBlocked(v: View, ids: set<TaskId>)
      returns (ok: bool, ghost done: set<TaskId>, ghost restored: set<TaskId>)
      modifies tasks
      ensures restored <= done <= ids && (ok ==> restored == ids)
      ensures tasks.status == SetAll(old(tasks.status), done, Blocked)
      ensures tasks.data == RestoredData(old(tasks.data), v, restored)
    {
      ok, done, restored := true, {}, {};
      SetAllNone(tasks.status, Blocked);
      RestoredNone(tasks.data, v);
      hide SetAll, RestoredData;
      var left := ids;
      while left != {}
        invariant left <= ids && done == restored == ids - left && ok
        invariant tasks.status == SetAll(old(tasks.status), done, Blocked)
        invariant tasks.data == RestoredData(old(tasks.data), v, restored)
        decreases left
      {
        var t :| t in left;
        SetAllStep(old(tasks.status), done, t, Blocked);
        ok := tasks.SetTaskStatus(t, Blocked);
        if !ok { return; }
        done := done + {t};
        RestoredStep(old(tasks.data), v, restored, t);
        var taskData := if t in v.taskData then v.taskData[t] else DEFAULT_BLOCKED_DATA;
        ok := tasks.SetTaskData(t, taskData);
        if !ok { return; }
        restored := restored + {t};
        left := left - {t};
      }
    }

    /** The last loop, with its two guards. */
    method ReopenInFlight(v: View) returns (ok: bool, ghost done: set<TaskId>)
      modifies tasks
      ensures done <= v.inFlight && (ok ==> done == v.inFlight - v.completed - v.blocked)
      ensures tasks.status == SetAll(old(tasks.status), done, Open) && tasks.data == old(tasks.data)
    {
      ok, done := true, {};
      var left := v.inFlight;
      while left != {}
        invariant left <= v.inFlight && done == v.inFlight - left - v.completed - v.blocked && ok
        invariant tasks.status == SetAll(old(tasks.status), done, Open) && tasks.data == old(tasks.data)
        decreases left
      {
        var t :| t in left;
        left := left - {t};
        if t in v.completed || t in v.blocked {
          continue;
        }
        SetAllStep(old(tasks.status), done, t, Open);
        ok := tasks.SetTaskStatus(t, Open);
        if !ok { return; }
        done := done + {t};
      }
    }

    /** The three loops in their order, each on what the earlier ones left of the view. */
    method RestoreStatuses(v: View) returns (ok: bool, emptied: View)
      modifies tasks
      ensures ok ==> emptied == Change(Recover, v)
      ensures ok ==> tasks.status == RecoveredStatus(old(tasks.status), v)
      ensures ok ==> tasks.data == RecoveredData(old(tasks.data), v)
      ensures RecoveredStatus(tasks.status, v) == RecoveredStatus(old(tasks.status), v)
      ensures RecoveredData(tasks.data, v) == RecoveredData(old(tasks.data), v)
    {
      hide SetAll, RestoredData, RecoveredStatus, RecoveredData;
      emptied := v;
      ghost var status, data := tasks.status, tasks.data;
      ghost var closed, blocked, restored, reopened: set<TaskId>;

      ok, closed := CloseCompleted(v.completed);
      SetAllAbsorbed(status, v, closed, Closed);
      if !ok { return; }
      emptied := View(v.inFlight, {}, v.blocked, v.taskData);

      ghost var status1 := tasks.status;
      ok, blocked, restored := BlockBlocked(emptied, v.blocked);
      SetAllAbsorbed(status1, v, blocked, Blocked);
      RestoredSame(data, emptied, v, restored);
      RestoredAbsorbed(data, v, restored);
      if !ok { return; }
      emptied := View(v.inFlight, {}, {}, v.taskData);

      ghost var status2 := tasks.status;
      ok, reopened := ReopenInFlight(emptied);
      SetAllAbsorbed(status2, v, reopened, Open);
      if !ok { return; }
      assert reopened == v.inFlight && blocked == v.blocked && closed == v.completed;
      SetAllComplete(status, v);
      RestoredComplete(data, v);
      emptied := Change(Recover, v);
    }

    /** Recovery, wherever the backend may fail: complete, it has set every task on
        record and emptied the three sets; stopped halfway, it has left the record as it
        was, and doing it again still ends with the same statuses and data. */
    method RecoverSchedulerState() returns (ok: bool)
      modifies store, tasks
      ensures ok ==> store.Current() == Atomic(Recover, old(store.Current()))
      ensures ok ==> tasks.status == RecoveredStatus(old(tasks.status), old(store.Current()))
      ensures ok ==> tasks.data == RecoveredData(old(tasks.data), old(store.Current()))
      ensures !ok ==> store.parents == old(store.parents)
      ensures RecoveredStatus(tasks.status, old(store.Current())) ==
        RecoveredStatus(old(tasks.status), old(store.Current()))
      ensures RecoveredData(tasks.data, old(store.Current())) == RecoveredData(old(tasks.data), old(store.Current()))
    {
      var snapshot := store.Load();
      var view: View;
      ok, view := RestoreStatuses(snapshot.view);
      if ok {
        store.Save(snapshot.(view := view));
      }
    }
  }

  lemma SetAllNone(status: map<TaskId, TaskStatus>, to: TaskStatus)
    ensures SetAll(status, {}, to) == status
  {
  }

  lemma RestoredNone(data: map<TaskId, Data>, v: View)
    ensures RestoredData(data, v, {}) == data
  {
  }

  lemma SetAllStep(status: map<TaskId, TaskStatus>, ids: set<TaskId>, t: TaskId, to: TaskStatus)
    ensures SetAll(status, ids, to)[t := to] == SetAll(status, ids + {t}, to)
  {
  }

  lemma RestoredStep(data: map<TaskId, Data>, v: View, ids: set<TaskId>, t: TaskId)
    ensures RestoredData(data, v, ids)[t := RestoredAs(v, t)] == RestoredData(data, v, ids + {t})
  {
    hide RestoredAs;
  }

  lemma RestoredSame(data: map<TaskId, Data>, v: View, w: View, ids: set<TaskId>)
    requires v.taskData == w.taskData
    ensures RestoredData(data, v, ids) == RestoredData(data, w, ids)
  {
    assert forall t :: RestoredAs(v, t) == RestoredAs(w, t);
  }

  lemma RestoredComplete(data: map<TaskId, Data>, v: View)
    ensures RestoredData(data, v, v.blocked) == RecoveredData(data, v)
  {
  }

  lemma SetAllAbsorbed(status: map<TaskId, TaskStatus>, v: View, ids: set<TaskId>, to: TaskStatus)
    requires ids <= Known(v)
    ensures RecoveredStatus(SetAll(status, ids, to), v) == RecoveredStatus(status, v)
  {
  }

  lemma RestoredAbsorbed(data: map<TaskId, Data>, v: View, ids: set<TaskId>)
    requires ids <= v.blocked
    ensures RecoveredData(RestoredData(data, v, ids), v) == RecoveredData(data, v)
  {
  }

  /** The data recovery leaves: a blocked task gets what the file has for it, or a note that
      it is blocked; the data of other tasks stays. */
  lemma RecoveredDataIs(data: map<TaskId, Data>, v: View, t: TaskId)
    ensures t in v.blocked && t in v.taskData ==>
      t in RecoveredData(data, v) && RecoveredData(data, v)[t] == v.taskData[t]
    ensures t in v.blocked && t !in v.taskData ==>
      t in RecoveredData(data, v) && RecoveredData(data, v)[t] == map["triage_status" := "blocked"]
    ensures t !in v.blocked ==>
      (t in RecoveredData(data, v) <==> t in data) && (t in data ==> RecoveredData(data, v)[t] == data[t])
  {
  }

  lemma SetAllAt(status: map<TaskId, TaskStatus>, ids: set<TaskId>, to: TaskStatus, t: TaskId)
    ensures t in SetAll(status, ids, to) <==> t in status || t in ids
    ensures t in ids ==> SetAll(status, ids, to)[t] == to
    ensures t !in ids && t in status ==> SetAll(status, ids, to)[t] == status[t]
  {
  }

  lemma RecoveredAt(status: map<TaskId, TaskStatus>, v: View, t: TaskId)
    ensures t in RecoveredStatus(status, v) <==> t in status || t in Known(v)
    ensures t in Known(v) ==> RecoveredStatus(status, v)[t] == RecoveredAs(v, t)
    ensures t !in Known(v) && t in status ==> RecoveredStatus(status, v)[t] == status[t]
  {
  }

  lemma SetAllComplete(status: map<TaskId, TaskStatus>, v: View)
    ensures SetAll(SetAll(SetAll(status, v.completed, Closed), v.blocked, Blocked), v.inFlight, Open) ==
      RecoveredStatus(status, v)
  {
    hide SetAll, RecoveredStatus;
    var closed := SetAll(status, v.completed, Closed);
    var blocked := SetAll(closed, v.blocked, Blocked);
    var all, r := SetAll(blocked, v.inFlight, Open), RecoveredStatus(status, v);
    forall t: TaskId
      ensures (t in all <==> t in r) && (t in all ==> all[t] == r[t])
    {
      SetAllAt(status, v.completed, Closed, t);
      SetAllAt(closed, v.blocked, Blocked, t);
      SetAllAt(blocked, v.inFlight, Open, t);
      RecoveredAt(status, v, t);
    }
    assert all.Keys == r.Keys;
  }
}
