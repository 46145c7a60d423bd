/** Why a pipeline ends as it does (internal/distributed/executor_pipeline.go): each outcome
    has its cause in the last reply that was used, the stage it was for, and what the
    current visit to that stage went through. */
module PipelineOutcomes {
  import opened Pipeline

  // ---- conditions, told by their text and the metadata ----

  predicate HoldsOn(condition: string, verdict: Truth) {
    Readable(condition) && condition != "false" && (condition == "true" || verdict == Holds)
  }

  predicate FailsOn(condition: string, verdict: Truth) {
    Readable(condition) && (condition == "false" || (condition != "true" && verdict == Fails))
  }

  predicate CannotTell(condition: string, verdict: Truth) {
    !Readable(condition) || (condition != "true" && condition != "false" && verdict == Unreadable)
  }

  // ---- the cause of each outcome ----

  /** The reason a failure is reported with. */
  function Said(r: Reply): string {
    if r.reason == "" then "stage execution failed" else r.reason
  }

  /** The branch a reply takes. */
  function Branch(s: Stage, r: Reply): Transition {
    if r.success then s.onSuccess else s.onFailure
  }

  /** The reply of the attempt, the stage's configuration, the number of the attempt and the
      failures of the visit before it explain the outcome. */
  predicate IsCause(config: Config, s: Stage, attempt: nat, before: seq<Failure>, r: Reply, outcome: Outcome) {
    var t := Branch(s, r);
    var usable := t.action != "" && t.condition != "";
    var takes := !r.cancelled && usable && HoldsOn(t.condition, r.verdict);
    var tries := if s.retry.maxAttempts > 1 then s.retry.maxAttempts else 1;
    match outcome
    case Cancelled => r.cancelled
    case BadTransition => !r.cancelled && !usable
    case BadCondition => !r.cancelled && usable && CannotTell(t.condition, r.verdict)
    case ConditionUnmet(branch) =>
      !r.cancelled && usable && FailsOn(t.condition, r.verdict) &&
      branch == if r.success then "on_success" else "on_failure"
    case Completed => takes && r.success && t.action == "complete"
    case NextStageRequired => takes && r.success && t.action == "next" && t.next == ""
    case MissingStage(stage) => takes && r.success && t.action == "next" && t.next == stage != "" && stage !in config
    case GaveUp(failures) =>
      takes && !r.success && (t.action == "fail" || (t.action == "retry" && attempt >= tries)) &&
      failures == before + [Failure(attempt, Said(r))]
    case WaitFailed => takes && !r.success && t.action == "retry" && attempt < tries && !r.waited
    case UnsupportedAction(action) =>
      takes && action == t.action && t.action !in (if r.success then {"next", "complete"} else {"retry", "fail"})
    case EmptyStage => false
  }

  /** One attempt ends the pipeline exactly when the outcome has its cause. */
  lemma AttemptEndsIff(config: Config, m: Machine, r: Reply, outcome: Outcome)
    requires m.Running? && m.stage in config
    ensures var after := Step(config, m, r);
      after.Ended? && after.outcome == outcome <==>
        IsCause(config, config[m.stage], Runs(m.runs, m.stage) + 1, m.failures, r, outcome)
  {
    hide Readable;
  }

  // ---- along a run ----

  /** The machine after the first n replies. */
  function At(config: Config, replies: seq<Reply>, n: nat): Machine
    requires n <= |replies|
  {
    StepAll(config, Start(config), replies[..n])
  }

  lemma {:induction false} OneMoreReply(config: Config, m: Machine, replies: seq<Reply>, r: Reply)
    ensures StepAll(config, m, replies + [r]) == Step(config, StepAll(config, m, replies), r)
    decreases |replies|
  {
    hide Step;
    if replies == [] {
      assert ([r])[1..] == [] && [] + [r] == [r];
      assert StepAll(config, Step(config, m, r), []) == Step(config, m, r);
    } else {
      assert (replies + [r])[1..] == replies[1..] + [r];
      OneMoreReply(config, Step(config, m, replies[0]), replies[1..], r);
    }
  }

  lemma AtNext(config: Config, replies: seq<Reply>, n: nat)
    requires n < |replies|
    ensures At(config, replies, n + 1) == Step(config, At(config, replies, n), replies[n])
  {
    hide Step, StepAll;
    OneMoreReply(config, Start(config), replies[..n], replies[n]);
    assert replies[..n] + [replies[n]] == replies[..n + 1];
  }

  lemma {:induction false} StageKnown(config: Config, replies: seq<Reply>, n: nat)
    requires n <= |replies| && At(config, replies, n).Running?
    ensures At(config, replies, n).stage in config
    ensures forall k :: 0 <= k <= n ==> At(config, replies, k).Running?
    decreases n
  {
    hide StepAll;
    if n > 0 {
      AtNext(config, replies, n - 1);
      StageKnown(config, replies, n - 1);
      StepKnown(config, At(config, replies, n - 1), replies[n - 1]);
    } else {
      assert replies[..0] == [];
      NothingYet(config);
    }
  }

  lemma NothingYet(config: Config)
    ensures StepAll(config, Start(config), []) == Start(config)
    ensures Start(config).Running? ==> Start(config) == Running("quality_gate", map[], []) && "quality_gate" in config
    ensures Start(config).Ended? ==> Start(config).outcome == MissingStage("quality_gate") && "quality_gate" !in config
  {
  }

  lemma StepKnown(config: Config, m: Machine, r: Reply)
    requires m.Running? ==> m.stage in config
    ensures Step(config, m, r).Running? ==> Step(config, m, r).stage in config && m.Running?
  {
  }

  /** The attempts of a stage among the first n replies. */
  function AttemptsIn(config: Config, replies: seq<Reply>, n: nat, stage: string): set<nat>
    requires n <= |replies|
  {
    set k: nat | k < n && At(config, replies, k).Running? && At(config, replies, k).stage == stage
  }

  /** The attempts are numbered by how often the stage has been run, over all visits. */
  lemma {:induction false} AttemptsCounted(config: Config, replies: seq<Reply>, n: nat, stage: string)
    requires n <= |replies|
    ensures Runs(At(config, replies, n).runs, stage) == |AttemptsIn(config, replies, n, stage)|
    decreases n
  {
    hide StepAll, At;
    if n == 0 {
      NoAttempts(config, replies, stage);
    } else {
      AttemptsCounted(config, replies, n - 1, stage);
      AtNext(config, replies, n - 1);
      var before := At(config, replies, n - 1);
      if before.Running? {
        StageKnown(config, replies, n - 1);
        RunCounted(config, before, replies[n - 1], stage);
      }
      if before.Running? && before.stage == stage {
        assert AttemptsIn(config, replies, n, stage) == AttemptsIn(config, replies, n - 1, stage) + {n - 1};
      } else {
        assert AttemptsIn(config, replies, n, stage) == AttemptsIn(config, replies, n - 1, stage);
      }
    }
  }

  lemma NoAttempts(config: Config, replies: seq<Reply>, stage: string)
    ensures Runs(At(config, replies, 0).runs, stage) == 0 && AttemptsIn(config, replies, 0, stage) == {}
  {
    assert replies[..0] == [];
  }

  lemma RunCounted(config: Config, m: Machine, r: Reply, stage: string)
    requires m.Running? && m.stage in config
    ensures Runs(Step(config, m, r).runs, stage) == Runs(m.runs, stage) + if m.stage == stage then 1 else 0
  {
    hide Readable;
  }

  // ---- the current visit ----

  /** From v on, the replies up to n were failures of one visit to the stage. */
  ghost predicate IsVisit(config: Config, replies: seq<Reply>, v: nat, n: nat, failures: seq<Failure>) {
    v <= n <= |replies| && |failures| == n - v && At(config, replies, n).Running? &&
    (v > 0 ==> replies[v - 1].success) &&
    forall i: nat :: v <= i < n ==>
      !replies[i].success && !replies[i].cancelled && At(config, replies, i).Running? &&
      At(config, replies, i).stage == At(config, replies, n).stage &&
      failures[i - v] == Failure(|AttemptsIn(config, replies, i, At(config, replies, n).stage)| + 1, Said(replies[i]))
  }

  /** What the machine keeps of a stage are the attempts and reasons of the current visit, in order. */
  lemma {:induction false} FailuresAreVisit(config: Config, replies: seq<Reply>, n: nat)
    requires n <= |replies| && At(config, replies, n).Running?
    ensures var m := At(config, replies, n);
      |m.failures| <= n && IsVisit(config, replies, n - |m.failures|, n, m.failures)
    decreases n
  {
    hide StepAll, At, Step, AttemptsIn;
    if n == 0 {
      NoFailures(config, replies);
    } else {
      StageKnown(config, replies, n);
      var before := At(config, replies, n - 1);
      StageKnown(config, replies, n - 1);
      FailuresAreVisit(config, replies, n - 1);
      AtNext(config, replies, n - 1);
      AttemptsCounted(config, replies, n - 1, before.stage);
      VisitStep(config, before, replies[n - 1]);
    }
  }

  lemma NoFailures(config: Config, replies: seq<Reply>)
    requires At(config, replies, 0).Running?
    ensures At(config, replies, 0).failures == []
  {
    assert replies[..0] == [];
  }

  lemma VisitStep(config: Config, m: Machine, r: Reply)
    requires m.Running? && m.stage in config && Step(config, m, r).Running?
    ensures var after := Step(config, m, r);
      !r.cancelled && (r.success ==> after.failures == []) &&
      (!r.success ==>
        after.stage == m.stage && after.failures == m.failures + [Failure(Runs(m.runs, m.stage) + 1, Said(r))])
  {
    hide Readable;
  }

  // ---- runs ----

  /** The reply at k ended the run, and that was why. */
  ghost predicate EndedBy(config: Config, replies: seq<Reply>, k: nat, outcome: Outcome) {
    k < |replies| && At(config, replies, k).Running? && At(config, replies, k).stage in config &&
    IsCause(config, config[At(config, replies, k).stage],
            |AttemptsIn(config, replies, k, At(config, replies, k).stage)| + 1, At(config, replies, k).failures,
            replies[k], outcome)
  }

  lemma EndedByIff(config: Config, replies: seq<Reply>, k: nat, outcome: Outcome)
    requires k < |replies| && At(config, replies, k).Running?
    ensures EndedBy(config, replies, k, outcome) <==>
      At(config, replies, k + 1).Ended? && At(config, replies, k + 1).outcome == outcome
  {
    hide StepAll, At, Step, AttemptsIn, IsCause;
    var m := At(config, replies, k);
    StageKnown(config, replies, k);
    AtNext(config, replies, k);
    AttemptsCounted(config, replies, k, m.stage);
    AttemptEndsIff(config, m, replies[k], outcome);
  }

  lemma {:induction false} StaysEnded(config: Config, replies: seq<Reply>, k: nat, n: nat)
    requires k <= n <= |replies| && At(config, replies, k).Ended?
    ensures At(config, replies, n) == At(config, replies, k)
    decreases n
  {
    hide StepAll, At, Step;
    if k < n {
      StaysEnded(config, replies, k, n - 1);
      AtNext(config, replies, n - 1);
      EndedStep(config, At(config, replies, n - 1), replies[n - 1]);
    }
  }

  lemma EndedStep(config: Config, m: Machine, r: Reply)
    requires m.Ended?
    ensures Step(config, m, r) == m
  {
  }

  lemma {:induction false} LastRunning(config: Config, replies: seq<Reply>, n: nat) returns (k: nat)
    requires n <= |replies| && At(config, replies, 0).Running? && At(config, replies, n).Ended?
    ensures k < n && At(config, replies, k).Running? && At(config, replies, k + 1) == At(config, replies, n)
    decreases n
  {
    hide StepAll, At, Step;
    if At(config, replies, n - 1).Running? {
      k := n - 1;
    } else {
      k := LastRunning(config, replies, n - 1);
      StaysEnded(config, replies, n - 1, n);
    }
  }

  /** Every run: the pipeline ends with an outcome exactly when some reply is its cause. */
  lemma OutcomeIff(config: Config, replies: seq<Reply>, outcome: Outcome)
    requires "quality_gate" in config
    ensures var m := StepAll(config, Start(config), replies);
      m.Ended? && m.outcome == outcome <==> exists k: nat :: EndedBy(config, replies, k, outcome)
  {
    hide StepAll, Step, EndedBy;
    var n := |replies|;
    assert replies[..n] == replies && replies[..0] == [];
    NothingYet(config);
    var m := At(config, replies, n);
    if m.Ended? {
      var k := LastRunning(config, replies, n);
      EndedByIff(config, replies, k, m.outcome);
    }
    if k: nat :| EndedBy(config, replies, k, outcome) {
      EndedByRuns(config, replies, k, outcome);
      EndedByIff(config, replies, k, outcome);
      StaysEnded(config, replies, k + 1, n);
    }
  }

  lemma EndedByRuns(config: Config, replies: seq<Reply>, k: nat, outcome: Outcome)
    requires EndedBy(config, replies, k, outcome)
    ensures k < |replies| && At(config, replies, k).Running?
  {
  }

  /** Without the first stage nothing is run. */
  lemma NoFirstStage(config: Config, replies: seq<Reply>)
    requires "quality_gate" !in config
    ensures StepAll(config, Start(config), replies) == Ended(MissingStage("quality_gate"), map[])
  {
    EndedStays(config, Start(config), replies);
  }

  /** The replies from v to k are the attempts of one visit to the stage, all failures, and
      these are their numbers, over all visits, and their reasons. */
  ghost predicate FailedVisit(config: Config, replies: seq<Reply>, v: nat, k: nat, stage: string,
                              failures: seq<Failure>) {
    v <= k < |replies| && |failures| == k + 1 - v && (v > 0 ==> replies[v - 1].success) &&
    forall i: nat :: v <= i <= k ==>
      !replies[i].success && !replies[i].cancelled && At(config, replies, i).Running? &&
      At(config, replies, i).stage == stage &&
      failures[i - v] == Failure(|AttemptsIn(config, replies, i, stage)| + 1, Said(replies[i]))
  }

  /** What a run that gave up reports is the whole last visit to the stage it gave up on. */
  lemma GaveUpReportsVisit(config: Config, replies: seq<Reply>, k: nat, failures: seq<Failure>) returns (v: nat)
    requires EndedBy(config, replies, k, GaveUp(failures))
    ensures FailedVisit(config, replies, v, k, At(config, replies, k).stage, failures)
  {
    hide StepAll, At, AttemptsIn;
    FailuresAreVisit(config, replies, k);
    var m := At(config, replies, k);
    v := k - |m.failures|;
    assert IsVisit(config, replies, v, k, m.failures);
  }
}
