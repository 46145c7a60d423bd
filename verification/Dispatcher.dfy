/** The dispatcher of the agent loop (internal/agent/loop.go, Run): one goroutine that
    picks tasks and sends them over an unbuffered channel, Concurrency workers that run
    them and report over a buffered one, and the task lock both sides use. */
module Dispatcher {
  import opened StateStore
  import opened Wrappers

  /** A worker has reported before it unlocks, so the dispatcher may collect in between. */
  datatype Worker = Free | Running(task: TaskId) | Reporting(task: TaskId, ok: bool) | Unlocking(task: TaskId)

  datatype Point =
    | Top                     // before the stop and limit checks
    | Choosing                // the inner loop that fills the workers
    | Marking(task: TaskId)   // has the lock, is recording the task as in flight
    | Sending(task: TaskId)   // blocked on the task channel
    | Waiting                 // blocked on the result channel
    | Returned(failed: bool)

  datatype Result = Result(task: TaskId, ok: bool)

  datatype System = System(
    maxTasks: int, at: Point, inFlight: set<TaskId>, locked: set<TaskId>,
    workers: seq<Worker>, results: seq<Result>, processed: nat, stop: bool)

  /** What NextTasks answers, or that it fails, and whether IsComplete is content at the end
      are the environment's choice, call by call. */
  datatype Step =
    | CheckTop
    | Choose(next: seq<TaskId>)
    | Marked(ok: bool)
    | EndChoosing(next: seq<TaskId>, complete: bool)
    | NextFails
    | HandOver(worker: nat) | Finish(worker: nat, ok: bool) | Report(worker: nat) | Unlock(worker: nat)
    | Collect | RequestStop

  function Concurrency(s: System): nat {
    |s.workers|
  }

  /** The first candidate that is not in flight and whose lock can be taken. */
  function FirstEligible(next: seq<TaskId>, inFlight: set<TaskId>, locked: set<TaskId>): (pick: Option<TaskId>)
    ensures pick.Some? ==> pick.value in next && pick.value !in inFlight && pick.value !in locked
    ensures pick.None? ==> forall t :: t in next ==> t in inFlight || t in locked
  {
    if next == [] then None
    else if next[0] !in inFlight && next[0] !in locked then Some(next[0])
    else FirstEligible(next[1..], inFlight, locked)
  }

  /** No candidate before the pick could have been taken. */
  lemma {:induction false} PickIsFirst(next: seq<TaskId>, inFlight: set<TaskId>, locked: set<TaskId>) returns (i: nat)
    requires FirstEligible(next, inFlight, locked).Some?
    ensures i < |next| && FirstEligible(next, inFlight, locked) == Some(next[i])
    ensures next[i] !in inFlight + locked && forall j :: 0 <= j < i ==> next[j] in inFlight + locked
    decreases |next|
  {
    if next[0] !in inFlight && next[0] !in locked {
      i := 0;
    } else {
      var k := PickIsFirst(next[1..], inFlight, locked);
      i := k + 1;
    }
  }

  predicate LimitReached(s: System) {
    s.maxTasks > 0 && s.processed + |s.inFlight| >= s.maxTasks
  }

  predicate MayChoose(s: System) {
    s.at.Choosing? && |s.inFlight| < Concurrency(s) && !LimitReached(s)
  }

  predicate Enabled(s: System, step: Step) {
    match step
    case CheckTop => s.at.Top?
    case Choose(next) => MayChoose(s) && FirstEligible(next, s.inFlight, s.locked).Some?
    case Marked(_) => s.at.Marking?
    case NextFails => MayChoose(s)
    case EndChoosing(next, _) => s.at.Choosing? && (!MayChoose(s) || FirstEligible(next, s.inFlight, s.locked).None?)
    case HandOver(w) => s.at.Sending? && w < |s.workers| && s.workers[w].Free?
    case Finish(w, _) => w < |s.workers| && s.workers[w].Running?
    case Report(w) => w < |s.workers| && s.workers[w].Reporting? && |s.results| < Concurrency(s)
    case Unlock(w) => w < |s.workers| && s.workers[w].Unlocking?
    case Collect => s.at.Waiting? && s.results != []
    case RequestStop => true
  }

  function Next(s: System, step: Step): System
    requires Enabled(s, step)
  {
    match step
    case CheckTop =>
      if s.inFlight == {} && (s.stop || (s.maxTasks > 0 && s.processed >= s.maxTasks)) then s.(at := Returned(false))
      else s.(at := Choosing)
    case Choose(next) =>
      var t := FirstEligible(next, s.inFlight, s.locked).value;
      s.(locked := s.locked + {t}, at := Marking(t))
    case Marked(ok) =>
      if ok then s.(inFlight := s.inFlight + {s.at.task}, at := Sending(s.at.task)) else s.(at := Returned(true))
    case NextFails => s.(at := Returned(true))
    case EndChoosing(_, complete) => if s.inFlight == {} then s.(at := Returned(!complete)) else s.(at := Waiting)
    case HandOver(w) => s.(workers := s.workers[w := Running(s.at.task)], at := Choosing)
    case Finish(w, ok) => s.(workers := s.workers[w := Reporting(s.workers[w].task, ok)])
    case Report(w) =>
      s.(workers := s.workers[w := Unlocking(s.workers[w].task)],
         results := s.results + [Result(s.workers[w].task, s.workers[w].ok)])
    case Unlock(w) => s.(workers := s.workers[w := Free], locked := s.locked - {s.workers[w].task})
    case Collect =>
      var r := s.results[0];
      var s' := s.(results := s.results[1..], inFlight := s.inFlight - {r.task});
      if r.ok then s'.(processed := s.processed + 1, at := Top) else s'.(at := Returned(true))
    case RequestStop => s.(stop := true)
  }

  // ---- invariant ----

  predicate IsBusy(w: Worker) {
    w.Running? || w.Reporting?
  }

  predicate InResults(results: seq<Result>, t: TaskId) {
    exists i :: 0 <= i < |results| && results[i].task == t
  }

  /** No task is with two workers, nor with one and in the dispatcher's hand; whoever
      has a task holds its lock. */
  ghost predicate OneWorkerEach(s: System) {
    (forall i :: 0 <= i < |s.workers| && !s.workers[i].Free? ==> s.workers[i].task in s.locked) &&
    (forall i, j :: 0 <= i < j < |s.workers| && !s.workers[i].Free? && !s.workers[j].Free? ==>
      s.workers[i].task != s.workers[j].task) &&
    (s.at.Sending? || s.at.Marking? ==> s.at.task in s.locked) &&
    (s.at.Sending? || s.at.Marking? ==>
      forall i :: 0 <= i < |s.workers| && !s.workers[i].Free? ==> s.workers[i].task != s.at.task)
  }

  /** The tasks in flight are those at work, those reported, and the one being sent. */
  ghost predicate InFlightAccounted(s: System) {
    (forall i :: 0 <= i < |s.workers| && IsBusy(s.workers[i]) ==>
      s.workers[i].task in s.inFlight && !InResults(s.results, s.workers[i].task)) &&
    (forall i :: 0 <= i < |s.results| ==> s.results[i].task in s.inFlight) &&
    (forall i, j :: 0 <= i < j < |s.results| ==> s.results[i].task != s.results[j].task) &&
    (s.at.Sending? ==> s.at.task in s.inFlight && !InResults(s.results, s.at.task)) &&
    (s.at.Marking? ==> s.at.task !in s.inFlight) &&
    (s.at.Waiting? ==> s.inFlight != {}) &&
    (forall t :: t in s.inFlight ==>
      (s.at.Sending? && s.at.task == t) || InResults(s.results, t) || WorkedOn(s.workers, t))
  }

  predicate WorkedOn(workers: seq<Worker>, t: TaskId) {
    exists i :: 0 <= i < |workers| && IsBusy(workers[i]) && workers[i].task == t
  }

  predicate Bounded(s: System) {
    |s.inFlight| <= Concurrency(s) && (s.maxTasks > 0 ==> s.processed + |s.inFlight| <= s.maxTasks) &&
    (s.at.Marking? ==> |s.inFlight| < Concurrency(s) && !LimitReached(s))
  }

  ghost predicate Inv(s: System) {
    OneWorkerEach(s) && InFlightAccounted(s) && Bounded(s)
  }

  lemma StepKeepsLocks(s: System, step: Step)
    requires Inv(s) && Enabled(s, step)
    ensures OneWorkerEach(Next(s, step))
  {
    hide InFlightAccounted, Bounded, LimitReached, MayChoose;
  }

  lemma StepKeepsBounds(s: System, step: Step)
    requires Inv(s) && Enabled(s, step)
    ensures Bounded(Next(s, step))
  {
    hide OneWorkerEach, InFlightAccounted, FirstEligible;
    CollectedIsOne(s);
  }

  lemma CollectedIsOne(s: System)
    requires Inv(s)
    ensures s.results != [] ==>
      s.results[0].task in s.inFlight && |s.inFlight - {s.results[0].task}| == |s.inFlight| - 1
    ensures s.at.Marking? ==> s.at.task !in s.inFlight
  {
    hide OneWorkerEach, InResults, WorkedOn;
  }

  lemma WorkedOnAfter(workers: seq<Worker>, w: nat, to: Worker, t: TaskId)
    requires w < |workers|
    ensures WorkedOn(workers, t) && !(IsBusy(workers[w]) && workers[w].task == t) ==> WorkedOn(workers[w := to], t)
    ensures IsBusy(to) && to.task == t ==> WorkedOn(workers[w := to], t)
  {
    if WorkedOn(workers, t) && !(IsBusy(workers[w]) && workers[w].task == t) {
      var i :| 0 <= i < |workers| && IsBusy(workers[i]) && workers[i].task == t;
      assert workers[w := to][i] == workers[i];
    }
    if IsBusy(to) && to.task == t {
      assert workers[w := to][w] == to;
    }
  }

  lemma InResultsAppend(results: seq<Result>, r: Result, t: TaskId)
    ensures InResults(results + [r], t) <==> InResults(results, t) || r.task == t
  {
    if InResults(results, t) {
      var i :| 0 <= i < |results| && results[i].task == t;
      assert (results + [r])[i].task == t;
    }
    if r.task == t {
      assert (results + [r])[|results|].task == t;
    }
  }

  lemma InResultsTail(results: seq<Result>, t: TaskId)
    requires results != []
    ensures InResults(results, t) <==> InResults(results[1..], t) || results[0].task == t
  {
    if InResults(results, t) {
      var i :| 0 <= i < |results| && results[i].task == t;
      assert i > 0 ==> results[1..][i - 1].task == t;
    }
    if InResults(results[1..], t) {
      var i :| 0 <= i < |results[1..]| && results[1..][i].task == t;
      assert results[i + 1].task == t;
    }
  }

  lemma ReportKeepsAccount(s: System, w: nat)
    requires Inv(s) && Enabled(s, Report(w))
    ensures InFlightAccounted(Next(s, Report(w)))
  {
    var s' := Next(s, Report(w));
    var r := Result(s.workers[w].task, s.workers[w].ok);
    forall t: TaskId
      ensures InResults(s'.results, t) <==> InResults(s.results, t) || r.task == t
      ensures WorkedOn(s.workers, t) && t != r.task ==> WorkedOn(s'.workers, t)
    {
      InResultsAppend(s.results, r, t);
      WorkedOnAfter(s.workers, w, s'.workers[w], t);
    }
    assert !InResults(s.results, r.task);
  }

  lemma CollectKeepsAccount(s: System)
    requires Inv(s) && Enabled(s, Collect)
    ensures InFlightAccounted(Next(s, Collect))
  {
    var s' := Next(s, Collect);
    forall t: TaskId
      ensures InResults(s.results, t) <==> InResults(s'.results, t) || s.results[0].task == t
    {
      InResultsTail(s.results, t);
    }
    assert InResults(s.results, s.results[0].task);
    forall i | 0 <= i < |s'.results|
      ensures s'.results[i].task != s.results[0].task && s'.results[i].task in s'.inFlight
    {
      assert s'.results[i] == s.results[i + 1];
    }
  }

  lemma WorkerStepKeepsAccount(s: System, step: Step)
    requires Inv(s) && Enabled(s, step) && (step.HandOver? || step.Finish? || step.Unlock?)
    ensures InFlightAccounted(Next(s, step))
  {
    var s' := Next(s, step);
    forall t: TaskId
      ensures WorkedOn(s.workers, t) ==> WorkedOn(s'.workers, t)
      ensures step.HandOver? ==> WorkedOn(s'.workers, s.at.task)
    {
      WorkedOnAfter(s.workers, step.worker, s'.workers[step.worker], t);
      if step.HandOver? {
        WorkedOnAfter(s.workers, step.worker, s'.workers[step.worker], s.at.task);
      }
    }
  }

  lemma MarkedKeepsAccount(s: System, ok: bool)
    requires Inv(s) && Enabled(s, Marked(ok))
    ensures InFlightAccounted(Next(s, Marked(ok)))
  {
    assert !InResults(s.results, s.at.task);
  }

  lemma StepKeepsInv(s: System, step: Step)
    requires Inv(s) && Enabled(s, step)
    ensures Inv(Next(s, step))
  {
    StepKeepsLocks(s, step);
    StepKeepsBounds(s, step);
    match step
    case Marked(ok) => MarkedKeepsAccount(s, ok);
    case HandOver(_) => WorkerStepKeepsAccount(s, step);
    case Finish(_, _) => WorkerStepKeepsAccount(s, step);
    case Unlock(_) => WorkerStepKeepsAccount(s, step);
    case Report(w) => ReportKeepsAccount(s, w);
    case Collect => CollectKeepsAccount(s);
    case _ =>
  }

  ghost predicate Legal(s: System, steps: seq<Step>)
    decreases |steps|
  {
    steps == [] || (Enabled(s, steps[0]) && Legal(Next(s, steps[0]), steps[1..]))
  }

  ghost function Run(s: System, steps: seq<Step>): System
    requires Legal(s, steps)
    decreases |steps|
  {
    if steps == [] then s else Run(Next(s, steps[0]), steps[1..])
  }

  /** Over all interleavings: at most Concurrency tasks in flight, no task with two
      workers, and processed plus in flight within MaxTasks when there is a limit. */
  lemma {:induction false} AlwaysSafe(s: System, steps: seq<Step>)
    requires Inv(s) && Legal(s, steps)
    ensures Inv(Run(s, steps)) && Concurrency(Run(s, steps)) == Concurrency(s)
    decreases |steps|
  {
    if steps != [] {
      StepKeepsInv(s, steps[0]);
      AlwaysSafe(Next(s, steps[0]), steps[1..]);
    }
  }

  function AllFree(n: nat): (workers: seq<Worker>)
    ensures |workers| == n && forall w :: w in workers ==> w == Free
  {
    if n == 0 then [] else AllFree(n - 1) + [Free]
  }

  lemma FreshRun(concurrency: nat, maxTasks: int, stop: bool)
    ensures Inv(System(maxTasks, Top, {}, {}, AllFree(concurrency), [], 0, stop))
  {
  }

  // ---- nobody blocks for good ----

  /** Distinct entries make a set of the same size. */
  lemma {:induction false} DistinctSize(ids: seq<TaskId>, all: set<TaskId>)
    requires forall i, j :: 0 <= i < j < |ids| ==> ids[i] != ids[j]
    requires forall i :: 0 <= i < |ids| ==> ids[i] in all
    ensures |ids| <= |all|
    decreases |ids|
  {
    if ids != [] {
      var rest := ids[1..];
      assert forall i :: 0 <= i < |rest| ==> rest[i] == ids[i + 1];
      DistinctSize(rest, all - {ids[0]});
      assert ids[0] in all;
      assert |all - {ids[0]}| == |all| - 1;
    }
  }

  function ResultTasks(results: seq<Result>): (ids: seq<TaskId>)
    ensures |ids| == |results| && forall i :: 0 <= i < |results| ==> ids[i] == results[i].task
  {
    if results == [] then [] else [results[0].task] + ResultTasks(results[1..])
  }

  function BusyTasks(workers: seq<Worker>): (ids: seq<TaskId>)
    requires forall i :: 0 <= i < |workers| ==> IsBusy(workers[i])
    ensures |ids| == |workers| && forall i :: 0 <= i < |workers| ==> IsBusy(workers[i]) && ids[i] == workers[i].task
  {
    if workers == [] then [] else
      assert IsBusy(workers[0]);
      [workers[0].task] + BusyTasks(workers[1..])
  }

  /** A worker never blocks on reporting: the result channel always has room for it. */
  lemma ReportNeverBlocks(s: System, w: nat)
    requires Inv(s) && w < |s.workers| && s.workers[w].Reporting?
    ensures Enabled(s, Report(w))
  {
    var t := s.workers[w].task;
    assert !InResults(s.results, t);
    var ids := ResultTasks(s.results);
    forall i | 0 <= i < |ids|
      ensures ids[i] in s.inFlight - {t}
    {
      assert ids[i] == s.results[i].task;
    }
    DistinctSize(ids, s.inFlight - {t});
    assert |s.inFlight - {t}| == |s.inFlight| - 1;
  }

  /** The dispatcher's send finds a worker that is free, or one that has already reported
      and becomes free by its own next step. */
  lemma SendFindsWorker(s: System) returns (w: nat)
    requires Inv(s) && s.at.Sending?
    ensures w < |s.workers| && (Enabled(s, HandOver(w)) || Enabled(s, Unlock(w)))
  {
    assert |s.inFlight - {s.at.task}| == |s.inFlight| - 1;
    if forall i :: 0 <= i < |s.workers| ==> IsBusy(s.workers[i]) {
      DistinctSize(BusyTasks(s.workers), s.inFlight - {s.at.task});
    }
    w :| w < |s.workers| && !IsBusy(s.workers[w]);
  }

  /** Deadlock freedom: until it has returned, the loop has an enabled step whatever
      NextTasks answers, its own or one of a worker that does not wait for it. */
  lemma NeverDeadlocked(s: System, next: seq<TaskId>) returns (step: Step)
    requires Inv(s) && !s.at.Returned?
    ensures Enabled(s, step) && !step.RequestStop?
    ensures step.Choose? || step.EndChoosing? ==> step.next == next
  {
    match s.at {
      case Top => step := CheckTop;
      case Choosing =>
        var pick := FirstEligible(next, s.inFlight, s.locked);
        step := if MayChoose(s) && pick.Some? then Choose(next) else EndChoosing(next, true);
      case Marking(_) => step := Marked(true);
      case Sending(_) =>
        var w := SendFindsWorker(s);
        step := if Enabled(s, HandOver(w)) then HandOver(w) else Unlock(w);
      case Waiting =>
        if s.results != [] {
          step := Collect;
        } else {
          var t :| t in s.inFlight;
          assert !InResults(s.results, t) && WorkedOn(s.workers, t);
          var i :| 0 <= i < |s.workers| && IsBusy(s.workers[i]) && s.workers[i].task == t;
          if s.workers[i].Running? {
            step := Finish(i, true);
          } else {
            ReportNeverBlocks(s, i);
            step := Report(i);
          }
        }
    }
  }

  /** A run that ends without an error has nothing in flight any more. */
  lemma QuietReturn(s: System, step: Step)
    requires Inv(s) && Enabled(s, step) && Next(s, step).at == Returned(false) && !s.at.Returned?
    ensures s.inFlight == {} && s.results == [] && forall i :: 0 <= i < |s.workers| ==> !IsBusy(s.workers[i])
  {
    DistinctSize(ResultTasks(s.results), s.inFlight);
  }

  // ---- what is counted ----

  /** The reports of success the loop has taken in along the way. */
  ghost function Successes(s: System, steps: seq<Step>): nat
    requires Legal(s, steps)
    decreases |steps|
  {
    if steps == [] then 0
    else (if steps[0].Collect? && s.results[0].ok then 1 else 0) + Successes(Next(s, steps[0]), steps[1..])
  }

  /** What counts against the limit are the tasks that were reported, each once. */
  lemma {:induction false} ProcessedIs(s: System, steps: seq<Step>)
    requires Legal(s, steps)
    ensures Run(s, steps).processed == s.processed + Successes(s, steps)
    decreases |steps|
  {
    if steps != [] {
      ProcessedIs(Next(s, steps[0]), steps[1..]);
    }
  }

  // ---- when a stop request takes effect ----

  /** At the top of the loop a requested stop returns exactly when nothing is in flight. */
  lemma StopReturnsIff(s: System)
    requires s.at.Top? && s.stop
    ensures Enabled(s, CheckTop)
    ensures Next(s, CheckTop).at == Returned(false) <==> s.inFlight == {}
    ensures s.inFlight != {} ==> Next(s, CheckTop).at == Choosing
  {
  }

  predicate Idles(s: System) {
    s.stop && s.inFlight == {} && (s.at.Top? || s.at == Returned(false))
  }

  ghost predicate ChoosesNothing(steps: seq<Step>) {
    forall i :: 0 <= i < |steps| ==> !steps[i].Choose?
  }

  /** Once a stop was requested, a loop at its top with nothing in flight takes no task on
      in any run, and all it can do is return without an error. */
  lemma {:induction false} StopTakesNothingOn(s: System, steps: seq<Step>)
    requires Inv(s) && Idles(s) && Legal(s, steps)
    ensures ChoosesNothing(steps) && Inv(Run(s, steps)) && Idles(Run(s, steps))
    decreases |steps|
  {
    hide Inv;
    if steps != [] {
      StepKeepsInv(s, steps[0]);
      IdleStep(s, steps[0]);
      StopTakesNothingOn(Next(s, steps[0]), steps[1..]);
    }
  }

  lemma IdleStep(s: System, step: Step)
    requires Inv(s) && Idles(s) && Enabled(s, step)
    ensures !step.Choose? && Idles(Next(s, step))
  {
    NothingComesBack(s, step);
  }

  lemma NothingComesBack(s: System, step: Step)
    requires Inv(s) && s.inFlight == {} && Enabled(s, step)
    ensures !step.Collect? && !step.Report? && !step.Finish?
  {
  }

  /** The loop waits for the only task there can be. */
  predicate WaitsForOne(s: System) {
    s.stop && |s.workers| == 1 && (s.at.Waiting? || s.at == Returned(true) || Idles(s))
  }

  /** With one worker the task that is running when the stop is requested is the last one. */
  lemma {:induction false} StopAfterOne(s: System, steps: seq<Step>)
    requires Inv(s) && WaitsForOne(s) && Legal(s, steps)
    ensures ChoosesNothing(steps) && WaitsForOne(Run(s, steps))
    decreases |steps|
  {
    hide Inv;
    if steps != [] {
      StepKeepsInv(s, steps[0]);
      WaitingStep(s, steps[0]);
      StopAfterOne(Next(s, steps[0]), steps[1..]);
    }
  }

  lemma WaitingStep(s: System, step: Step)
    requires Inv(s) && WaitsForOne(s) && Enabled(s, step)
    ensures !step.Choose? && WaitsForOne(Next(s, step))
  {
    if step.Collect? {
      assert s.results[0].task in s.inFlight;
      OnlyElement(s.inFlight, s.results[0].task);
    } else if s.at.Top? {
      IdleStep(s, step);
    }
  }

  lemma OnlyElement(ids: set<TaskId>, t: TaskId)
    requires t in ids && |ids| <= 1
    ensures ids - {t} == {}
  {
    assert |ids - {t}| == 0;
  }

  // ---- with more workers it need not take effect ----

  const ONE: TaskId := "a"
  const TWO: TaskId := "b"

  /** Two workers at work, the rest of them idle, a stop requested, and n tasks done. */
  function BothBusy(n: nat, rest: seq<Worker>): System {
    System(0, Waiting, {ONE, TWO}, {ONE, TWO}, [Running(ONE), Running(TWO)] + rest, [], n, true)
  }

  const ONE_MORE := [
    Finish(0, true), Report(0), Unlock(0), Collect, CheckTop, Choose([ONE]), Marked(true), HandOver(0),
    EndChoosing([], true)]

  function OneDone(n: nat, rest: seq<Worker>): System {
    System(0, Top, {TWO}, {TWO}, [Free, Running(TWO)] + rest, [], n + 1, true)
  }

  lemma FirstHalf(n: nat, rest: seq<Worker>)
    ensures Legal(BothBusy(n, rest), ONE_MORE[..4]) && Run(BothBusy(n, rest), ONE_MORE[..4]) == OneDone(n, rest)
  {
    var s := BothBusy(n, rest);
    assert {ONE, TWO} - {ONE} == {TWO};
    var s1 := Next(s, Finish(0, true));
    assert s1.workers == [Reporting(ONE, true), Running(TWO)] + rest;
    var s2 := Next(s1, Report(0));
    assert s2.workers == [Unlocking(ONE), Running(TWO)] + rest && s2.results == [Result(ONE, true)];
    var s3 := Next(s2, Unlock(0));
    assert s3.workers == [Free, Running(TWO)] + rest;
    var s4 := Next(s3, Collect);
    assert s4 == OneDone(n, rest);
    FourSteps(s, Finish(0, true), Report(0), Unlock(0), Collect);
    assert ONE_MORE[..4] == [Finish(0, true), Report(0), Unlock(0), Collect];
  }

  lemma FourSteps(s: System, a: Step, b: Step, c: Step, d: Step)
    requires Enabled(s, a) && Enabled(Next(s, a), b) && Enabled(Next(Next(s, a), b), c)
    requires Enabled(Next(Next(Next(s, a), b), c), d)
    ensures Legal(s, [a, b, c, d]) && Run(s, [a, b, c, d]) == Next(Next(Next(Next(s, a), b), c), d)
  {
    hide Enabled, Next;
    assert [a, b, c, d][1..] == [b, c, d] && [b, c, d][1..] == [c, d] && [c, d][1..] == [d] && [d][1..] == [];
    var s2 := Next(Next(s, a), b);
    var s3 := Next(s2, c);
    var last := Next(s3, d);
    assert Legal(last, []) && Run(last, []) == last;
    assert Legal(s3, [d]) && Run(s3, [d]) == last;
    assert Legal(s2, [c, d]) && Run(s2, [c, d]) == last;
    assert Legal(Next(s, a), [b, c, d]) && Run(Next(s, a), [b, c, d]) == last;
  }

  lemma SecondHalf(n: nat, rest: seq<Worker>)
    ensures Legal(OneDone(n, rest), ONE_MORE[4..]) && Run(OneDone(n, rest), ONE_MORE[4..]) == BothBusy(n + 1, rest)
  {
    var s := OneDone(n, rest);
    var s1 := Next(s, CheckTop);
    assert s1 == s.(at := Choosing);
    assert FirstEligible([ONE], {TWO}, {TWO}) == Some(ONE);
    var s2 := Next(s1, Choose([ONE]));
    assert s2.at == Marking(ONE) && s2.locked == {ONE, TWO};
    var s3 := Next(s2, Marked(true));
    assert s3.at == Sending(ONE) && s3.inFlight == {ONE, TWO};
    var s4 := Next(s3, HandOver(0));
    assert s4.workers == [Running(ONE), Running(TWO)] + rest && s4.at == Choosing;
    var e := EndChoosing([], true);
    assert |s4.inFlight| == 2;
    assert Next(s4, e) == BothBusy(n + 1, rest);
    FourSteps(s, CheckTop, Choose([ONE]), Marked(true), HandOver(0));
    OneAfter(s, [CheckTop, Choose([ONE]), Marked(true), HandOver(0)], e);
    assert ONE_MORE[4..] == [CheckTop, Choose([ONE]), Marked(true), HandOver(0)] + [e];
  }

  lemma {:induction false} OneAfter(s: System, steps: seq<Step>, step: Step)
    requires Legal(s, steps) && Enabled(Run(s, steps), step)
    ensures Legal(s, steps + [step]) && Run(s, steps + [step]) == Next(Run(s, steps), step)
    decreases |steps|
  {
    assert [step][1..] == [] && Legal(Next(Run(s, steps), step), []);
    RunsOn(s, steps, [step]);
  }

  lemma {:induction false} RunsOn(s: System, a: seq<Step>, b: seq<Step>)
    requires Legal(s, a) && Legal(Run(s, a), b)
    ensures Legal(s, a + b) && Run(s, a + b) == Run(Run(s, a), b)
    decreases |a|
  {
    hide Enabled, Next;
    if a == [] {
      assert a + b == b;
    } else {
      assert (a + b)[1..] == a[1..] + b;
      RunsOn(Next(s, a[0]), a[1..], b);
    }
  }

  function Rounds(n: nat): seq<Step> {
    if n == 0 then [] else ONE_MORE + Rounds(n - 1)
  }

  /** With two workers and tasks that are always ready, any number of tasks is still taken
      on and finished after the request: the loop is at its top only while one is running. */
  lemma {:induction false} StopNeedNotStop(n: nat, done: nat, rest: seq<Worker>)
    ensures Legal(BothBusy(done, rest), Rounds(n)) && Run(BothBusy(done, rest), Rounds(n)) == BothBusy(done + n, rest)
    decreases n
  {
    hide BothBusy, OneDone, Legal, Run;
    if n == 0 {
      NoSteps(BothBusy(done, rest));
    } else {
      FirstHalf(done, rest);
      SecondHalf(done, rest);
      RunsOn(BothBusy(done, rest), ONE_MORE[..4], ONE_MORE[4..]);
      assert ONE_MORE[..4] + ONE_MORE[4..] == ONE_MORE;
      StopNeedNotStop(n - 1, done + 1, rest);
      RunsOn(BothBusy(done, rest), ONE_MORE, Rounds(n - 1));
    }
  }

  lemma NoSteps(s: System)
    ensures Legal(s, []) && Run(s, []) == s
  {
  }

  const TAKE_ONE := [CheckTop, Choose([ONE]), Marked(true), HandOver(0)]
  const TAKE_TWO := [Choose([TWO]), Marked(true), HandOver(1), EndChoosing([], true)]

  function OneBusy(rest: seq<Worker>): System {
    System(0, Choosing, {ONE}, {ONE}, [Running(ONE), Free] + rest, [], 0, false)
  }

  lemma OneTaken(rest: seq<Worker>)
    ensures var start := System(0, Top, {}, {}, [Free, Free] + rest, [], 0, false);
      Legal(start, TAKE_ONE) && Run(start, TAKE_ONE) == OneBusy(rest)
  {
    var s := System(0, Top, {}, {}, [Free, Free] + rest, [], 0, false);
    var s1 := Next(s, CheckTop);
    assert FirstEligible([ONE], {}, {}) == Some(ONE);
    var s2 := Next(s1, Choose([ONE]));
    assert s2.at == Marking(ONE) && s2.locked == {ONE};
    var s3 := Next(s2, Marked(true));
    assert s3.at == Sending(ONE) && s3.inFlight == {ONE};
    assert Next(s3, HandOver(0)) == OneBusy(rest);
    FourSteps(s, CheckTop, Choose([ONE]), Marked(true), HandOver(0));
  }

  lemma TwoTaken(rest: seq<Worker>)
    ensures Legal(OneBusy(rest), TAKE_TWO) && Run(OneBusy(rest), TAKE_TWO) == BothBusy(0, rest).(stop := false)
  {
    var s := OneBusy(rest);
    assert FirstEligible([TWO], {ONE}, {ONE}) == Some(TWO);
    assert |s.inFlight| == 1;
    var s2 := Next(s, Choose([TWO]));
    assert s2.at == Marking(TWO) && s2.locked == {ONE, TWO};
    var s3 := Next(s2, Marked(true));
    assert s3.at == Sending(TWO) && s3.inFlight == {ONE, TWO};
    var s4 := Next(s3, HandOver(1));
    assert s4.workers == [Running(ONE), Running(TWO)] + rest && |s4.inFlight| == 2;
    FourSteps(s, Choose([TWO]), Marked(true), HandOver(1), EndChoosing([], true));
  }

  /** From the start of a loop with more than one worker: two tasks are taken, the stop is
      requested, and any number of tasks is taken on and finished after that. */
  lemma StopIgnored(concurrency: nat, n: nat)
    requires concurrency >= 2
    ensures var s := System(0, Top, {}, {}, AllFree(concurrency), [], 0, false);
      var steps := TAKE_ONE + TAKE_TWO + [RequestStop] + Rounds(n);
      Inv(s) && Legal(s, steps) && Run(s, steps) == BothBusy(n, AllFree(concurrency - 2))
  {
    hide Legal, Run, OneBusy, Inv;
    var rest := AllFree(concurrency - 2);
    var s := System(0, Top, {}, {}, AllFree(concurrency), [], 0, false);
    FreshRun(concurrency, 0, false);
    FreeOnly(concurrency, rest);
    OneTaken(rest);
    TwoTaken(rest);
    RunsOn(s, TAKE_ONE, TAKE_TWO);
    var both := BothBusy(0, rest).(stop := false);
    assert Next(both, RequestStop) == BothBusy(0, rest);
    OneAfter(s, TAKE_ONE + TAKE_TWO, RequestStop);
    StopNeedNotStop(n, 0, rest);
    RunsOn(s, TAKE_ONE + TAKE_TWO + [RequestStop], Rounds(n));
  }

  lemma FreeOnly(n: nat, rest: seq<Worker>)
    requires n >= 2 && rest == AllFree(n - 2)
    ensures AllFree(n) == [Free, Free] + rest
  {
    var all, two := AllFree(n), [Free, Free] + rest;
    forall i | 0 <= i < n
      ensures all[i] == two[i]
    {
      assert all[i] in all && (i >= 2 ==> rest[i - 2] in rest);
    }
  }
}
