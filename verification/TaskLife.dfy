/** What the traces of TaskRun mean: for landing, in terms of the calls themselves, and
    for the crash-recovery store, in terms of the lives of RunLife. */
module TaskLife {
  import opened Contracts
  import opened StateStore
  import opened StoreHistory
  import opened RunLife
  import opened TaskRun
  import opened Wrappers

  /** Calls a, b and c of the trace: the landing lock, then a merge and a push that went
      through, with the lock not given back before the call at i. */
  ghost predicate LandedBefore(trace: seq<Entry>, i: nat, a: int, b: int, c: int) {
    0 <= a < b < c < i <= |trace| && trace[a].call == LockLanding && trace[b] == Entry(MergeToMain, true) &&
    trace[c] == Entry(PushMain, true) &&
    forall k :: a <= k < i ==> trace[k].call != UnlockLanding
  }

  ghost predicate LockedSince(trace: seq<Entry>, a: int) {
    0 <= a < |trace| && trace[a].call == LockLanding && forall k :: a <= k < |trace| ==> trace[k].call != UnlockLanding
  }

  ghost predicate MergedSince(trace: seq<Entry>, a: int, b: int) {
    LockedSince(trace, a) && a < b < |trace| && trace[b] == Entry(MergeToMain, true)
  }

  lemma {:induction false} HoldingSince(task: TaskId, trace: seq<Entry>)
    requires WatchAll(task, trace).landing.holding
    ensures exists a :: LockedSince(trace, a)
    ensures WatchAll(task, trace).landing.merged ==> exists a, b :: MergedSince(trace, a, b)
    decreases |trace|
  {
    var n := |trace| - 1;
    var before := trace[..n];
    if trace[n].call == LockLanding {
      assert LockedSince(trace, n);
    } else {
      HoldingSince(task, before);
      var a :| LockedSince(before, a);
      assert LockedSince(trace, a);
      if WatchAll(task, trace).landing.merged {
        if trace[n].call == MergeToMain {
          assert MergedSince(trace, a, n);
        } else {
          var a', b :| MergedSince(before, a', b);
          assert MergedSince(trace, a', b);
        }
      }
    }
  }

  lemma {:induction false} PushedMeansLanded(task: TaskId, trace: seq<Entry>)
    requires WatchAll(task, trace).landing.pushed
    ensures WatchAll(task, trace).landing.holding && WatchAll(task, trace).landing.merged
    ensures exists a, b, c :: LandedBefore(trace, |trace|, a, b, c)
    decreases |trace|
  {
    var n := |trace| - 1;
    var before := trace[..n];
    if trace[n].call == PushMain {
      MergedMeansHolding(task, before);
      HoldingSince(task, before);
      var a, b :| MergedSince(before, a, b);
      assert LandedBefore(trace, |trace|, a, b, n);
    } else {
      PushedMeansLanded(task, before);
      var a, b, c :| LandedBefore(before, |before|, a, b, c);
      assert LandedBefore(trace, |trace|, a, b, c);
    }
  }

  lemma {:induction false} MergedMeansHolding(task: TaskId, trace: seq<Entry>)
    requires WatchAll(task, trace).landing.merged
    ensures WatchAll(task, trace).landing.holding
    decreases |trace|
  {
    if trace[|trace| - 1].call != MergeToMain {
      MergedMeansHolding(task, trace[..|trace| - 1]);
    }
  }

  lemma {:induction false} CleanBefore(task: TaskId, trace: seq<Entry>, i: nat)
    requires i < |trace| && WatchAll(task, trace).clean && trace[i].call == SetStatus(Closed)
    ensures WatchAll(task, trace[..i]).landing.pushed
    decreases |trace|
  {
    var n := |trace| - 1;
    if i < n {
      CleanBefore(task, trace[..n], i);
      assert trace[..n][..i] == trace[..i];
    }
  }

  /** Closed is written only after landing: in the trace of any task run with merging on,
      every attempt to write Closed follows a merge and a push that went through, in
      this order and under the landing lock, which is still held. */
  lemma ClosedOnlyAfterLanding(task: TaskId, trace: seq<Entry>, i: nat)
    requires i < |trace| && WatchAll(task, trace).clean && trace[i].call == SetStatus(Closed)
    ensures exists a, b, c :: LandedBefore(trace, i, a, b, c)
  {
    CleanBefore(task, trace, i);
    PushedMeansLanded(task, trace[..i]);
    var a, b, c :| LandedBefore(trace[..i], i, a, b, c);
    assert LandedBefore(trace, i, a, b, c);
  }

  // ---- the record and the status ----

  /** The last operation that went through before n. */
  ghost predicate LastRecorded(trace: seq<Entry>, a: nat, n: nat) {
    a < n <= |trace| && trace[a].call.Record? && trace[a].ok &&
    forall k :: a < k < n ==> !(trace[k].call.Record? && trace[k].ok)
  }

  /** The last status that was written before n. */
  ghost predicate LastWritten(trace: seq<Entry>, b: nat, n: nat) {
    b < n <= |trace| && trace[b].call.SetStatus? && trace[b].ok &&
    forall k :: b < k < n ==> !(trace[k].call.SetStatus? && trace[k].ok)
  }

  /** Data was written after a and before n. */
  ghost predicate NotedSince(trace: seq<Entry>, a: nat, n: nat) {
    exists d: nat :: a < d < n <= |trace| && trace[d] == Entry(SetData, true)
  }

  lemma {:induction false} PhaseMeans(task: TaskId, trace: seq<Entry>)
    ensures var p := WatchAll(task, trace).books.phase;
      p == Some(Stuck) || p == Some(Landed) ==> exists a: nat ::
        LastRecorded(trace, a, |trace|) && IsOn(trace[a].call.op, task) &&
        (p == Some(Stuck) ==> trace[a].call.op.MarkBlocked?) && (p == Some(Landed) ==> trace[a].call.op.MarkCompleted?)
    decreases |trace|
  {
    if trace != [] {
      var n := |trace| - 1;
      var before := trace[..n];
      PhaseMeans(task, before);
      var p := WatchAll(task, trace).books.phase;
      if p == Some(Stuck) || p == Some(Landed) {
        if trace[n].call.Record? && trace[n].ok {
          assert LastRecorded(trace, n, |trace|);
        } else {
          var a: nat :| LastRecorded(before, a, n) && IsOn(before[a].call.op, task) &&
            (p == Some(Stuck) ==> before[a].call.op.MarkBlocked?) &&
            (p == Some(Landed) ==> before[a].call.op.MarkCompleted?);
          assert LastRecorded(trace, a, |trace|) && trace[a] == before[a];
        }
      }
    }
  }

  lemma {:induction false} StatusMeans(task: TaskId, trace: seq<Entry>)
    ensures var to := WatchAll(task, trace).books.status;
      to.Some? ==> exists b: nat :: LastWritten(trace, b, |trace|) && trace[b].call == SetStatus(to.value)
    decreases |trace|
  {
    if trace != [] {
      var n := |trace| - 1;
      StatusMeans(task, trace[..n]);
      var to := WatchAll(task, trace).books.status;
      if to.Some? {
        if trace[n].call.SetStatus? && trace[n].ok {
          assert LastWritten(trace, n, |trace|);
        } else {
          var b: nat :| LastWritten(trace[..n], b, n) && trace[..n][b].call == SetStatus(to.value);
          assert LastWritten(trace, b, |trace|);
        }
      }
    }
  }

  lemma {:induction false} NoteMeans(task: TaskId, trace: seq<Entry>, a: nat)
    requires WatchAll(task, trace).books.noted && LastRecorded(trace, a, |trace|) && trace[a].call.op.MarkBlocked?
    ensures NotedSince(trace, a, |trace|)
    decreases |trace|
  {
    var n := |trace| - 1;
    if trace[n] == Entry(SetData, true) {
      assert a != n;
    } else {
      assert a < n && LastRecorded(trace[..n], a, n);
      NoteMeans(task, trace[..n], a);
      var d: nat :| a < d < n && trace[..n][d] == Entry(SetData, true);
      assert trace[d] == Entry(SetData, true);
    }
  }

  lemma {:induction false} OrderedAt(task: TaskId, trace: seq<Entry>, i: nat)
    requires i < |trace| && WatchAll(task, trace).books.ordered
    ensures var b := WatchAll(task, trace[..i]).books;
      (trace[i].call.SetStatus? ==> StatusInOrder(b, trace[i].call.to)) &&
      (trace[i].call.Record? ==> RecordInOrder(b, trace[i].call.op))
    decreases |trace|
  {
    hide StatusInOrder, RecordInOrder;
    var n := |trace| - 1;
    if i < n {
      OrderedAt(task, trace[..n], i);
      assert trace[..n][..i] == trace[..i];
    }
  }

  /** A task is written Blocked or Closed only when the last thing on record says so: a crash
      in between finds the record that recovery goes by. */
  lemma RecordBeforeStatus(task: TaskId, trace: seq<Entry>, i: nat)
    requires WatchAll(task, trace).books.ordered && i < |trace|
    requires trace[i].call == SetStatus(Blocked) || trace[i].call == SetStatus(Closed)
    ensures exists a: nat ::
      LastRecorded(trace, a, i) && IsOn(trace[a].call.op, task) &&
      if trace[i].call == SetStatus(Blocked) then trace[a].call.op.MarkBlocked? else trace[a].call.op.MarkCompleted?
  {
    hide WatchAll, IsOn;
    OrderedAt(task, trace, i);
    PhaseMeans(task, trace[..i]);
    var a: nat :| LastRecorded(trace[..i], a, i) && IsOn(trace[..i][a].call.op, task) &&
      if trace[i].call == SetStatus(Blocked) then trace[..i][a].call.op.MarkBlocked?
      else trace[..i][a].call.op.MarkCompleted?;
    assert LastRecorded(trace, a, i);
  }

  lemma {:induction false} ClearedFrom(task: TaskId, trace: seq<Entry>, i: nat)
    requires WatchAll(task, trace).books.phase.Some? && i < |trace|
    requires trace[i].ok && trace[i].call.Record? && trace[i].call.op.ClearTerminal?
    ensures WatchAll(task, trace[..i]).books.phase in {Some(Stuck), Some(Landed)}
    decreases |trace|
  {
    var n := |trace| - 1;
    if i < n {
      ClearedFrom(task, trace[..n], i);
      assert trace[..n][..i] == trace[..i];
    }
  }

  /** The record of a blocked or completed task is cleared only after its status was written,
      and for a blocked one its data too: a crash before that is made good by recovery. */
  lemma StatusBeforeClearing(task: TaskId, trace: seq<Entry>, i: nat)
    requires WatchAll(task, trace).books.ordered && i < |trace|
    requires trace[i].ok && trace[i].call.Record? && trace[i].call.op.ClearTerminal?
    requires WatchAll(task, trace).books.phase.Some?
    ensures exists a: nat, b: nat ::
      LastRecorded(trace, a, i) && LastWritten(trace, b, i) &&
      if trace[a].call.op.MarkBlocked? then trace[b].call == SetStatus(Blocked) && NotedSince(trace, a, i)
      else trace[a].call.op.MarkCompleted? && trace[b].call == SetStatus(Closed)
  {
    hide WatchAll, IsOn, NotedSince;
    var before := trace[..i];
    ClearedFrom(task, trace, i);
    OrderedAt(task, trace, i);
    PhaseMeans(task, before);
    StatusMeans(task, before);
    var a: nat :| LastRecorded(before, a, i) && (before[a].call.op.MarkBlocked? || before[a].call.op.MarkCompleted?) &&
      (WatchAll(task, before).books.phase == Some(Stuck) <==> before[a].call.op.MarkBlocked?);
    var b: nat :| LastWritten(before, b, i) && before[b].call == SetStatus(WatchAll(task, before).books.status.value);
    if before[a].call.op.MarkBlocked? {
      NoteMeans(task, before, a);
    }
    InPrefix(trace, i, a, b);
  }

  lemma InPrefix(trace: seq<Entry>, i: nat, a: nat, b: nat)
    requires i <= |trace| && LastRecorded(trace[..i], a, i) && LastWritten(trace[..i], b, i)
    ensures LastRecorded(trace, a, i) && LastWritten(trace, b, i) && trace[a] == trace[..i][a] &&
      trace[b] == trace[..i][b]
    ensures NotedSince(trace[..i], a, i) ==> NotedSince(trace, a, i)
  {
    if NotedSince(trace[..i], a, i) {
      var d: nat :| a < d < i && trace[..i][d] == Entry(SetData, true);
      assert trace[d] == Entry(SetData, true);
    }
  }

  /** The operations on the store that went through, in order. */
  function Recorded(trace: seq<Entry>): seq<Op>
    decreases |trace|
  {
    if trace == [] then [] else
      var n := |trace| - 1;
      Recorded(trace[..n]) + (if trace[n].call.Record? && trace[n].ok then [trace[n].call.op] else [])
  }

  /** A task run uses the store in the order the life of a run asks for, and for its own
      task only. */
  lemma {:induction false} TraceFollowsPhases(task: TaskId, trace: seq<Entry>)
    requires WatchAll(task, trace).books.phase.Some?
    ensures AfterAll(Flying, Recorded(trace)) == WatchAll(task, trace).books.phase
    ensures forall op :: op in Recorded(trace) ==> IsOn(op, task)
    decreases |trace|
  {
    hide After, AfterAll;
    if trace == [] {
      NothingRecorded();
    } else {
      var n := |trace| - 1;
      TraceFollowsPhases(task, trace[..n]);
      if trace[n].call.Record? && trace[n].ok {
        AfterAllAppend(Flying, Recorded(trace[..n]), trace[n].call.op);
      } else {
        assert Recorded(trace) == Recorded(trace[..n]);
      }
    }
  }

  lemma NothingRecorded()
    ensures AfterAll(Flying, []) == Some(Flying)
  {
  }
}
