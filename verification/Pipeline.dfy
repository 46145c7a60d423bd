/** The stage pipeline of an executor (internal/distributed/executor_pipeline.go): stages
    are run, retried, and left by the transitions of the configuration. */
module Pipeline {
  import opened Wrappers

  datatype Retry = Retry(maxAttempts: int, initialDelayMs: int, backoffMs: int, maxDelayMs: int)
  datatype Transition = Transition(action: string, next: string, condition: string)
  datatype Stage = Stage(retry: Retry, onSuccess: Transition, onFailure: Transition)
  type Config = map<string, Stage>

  datatype Truth = Holds | Fails | Unreadable

  /** One attempt as the stage runner and the context answer it; verdict is the value of the
      transition's condition on the metadata at that point. */
  datatype Reply = Reply(cancelled: bool, success: bool, reason: string, verdict: Truth, waited: bool)

  datatype Failure = Failure(attempt: nat, reason: string)

  datatype Outcome =
    | EmptyStage
    | MissingStage(stage: string)
    | Cancelled
    | BadTransition
    | BadCondition
    | ConditionUnmet(branch: string)
    | NextStageRequired
    | UnsupportedAction(action: string)
    | WaitFailed
    | Completed
    | GaveUp(failures: seq<Failure>)

  /** failures are those of the current visit to the stage; runs count over all visits. */
  datatype Machine =
    | Running(stage: string, runs: map<string, nat>, failures: seq<Failure>)
    | Ended(outcome: Outcome, runs: map<string, nat>)

  function Runs(runs: map<string, nat>, stage: string): nat {
    if stage in runs then runs[stage] else 0
  }

  function MaxAttempts(s: Stage): nat {
    if s.retry.maxAttempts <= 0 then 1 else s.retry.maxAttempts
  }

  // ---- conditions ----

  predicate IsBlank(c: char) {
    c in " \t\n\r"
  }

  function WordLength(s: string): (n: nat)
    ensures n <= |s| && (s != [] && !IsBlank(s[0]) ==> n > 0)
  {
    if s == [] || IsBlank(s[0]) then 0 else 1 + WordLength(s[1..])
  }

  /** The words of a text between its blanks. */
  function Fields(s: string): seq<string> {
    if s == [] then [] else if IsBlank(s[0]) then Fields(s[1..]) else [s[..WordLength(s)]] + Fields(s[WordLength(s)..])
  }

  predicate IsDigits(s: string) {
    s != [] && forall i :: 0 <= i < |s| ==> '0' <= s[i] <= '9'
  }

  function Whole(digits: string): nat
    requires forall i :: 0 <= i < |digits| ==> '0' <= digits[i] <= '9'
  {
    if digits == [] then 0 else 10 * Whole(digits[..|digits| - 1]) + (digits[|digits| - 1] - '0') as int
  }

  function Power2(n: nat): nat {
    if n == 0 then 1 else 2 * Power2(n - 1)
  }

  /** Digits, or i digits, a point and digits; the value stays below what a 64-bit float
      rounds to infinity. */
  predicate NumberAt(s: string, i: nat) {
    i <= |s| && IsDigits(s[..i]) && Whole(s[..i]) < Power2(1024) - Power2(970) &&
    (i == |s| || (s[i] == '.' && IsDigits(s[i + 1..])))
  }

  predicate IsNumber(s: string) {
    exists i: nat :: i <= |s| && NumberAt(s, i)
  }

  /** The conditions that can be evaluated: around a comparison blanks are needed, though the
      validation of configurations asks for none. */
  predicate Readable(condition: string) {
    condition in {"true", "false", "tests_failed", "review_failed"} ||
    (var words := Fields(condition);
     |words| == 3 && words[0] == SCORE && words[1] in COMPARISONS &&
     (words[2] == "threshold" || IsNumber(words[2])))
  }

  predicate AreBlanks(s: string) {
    forall i :: 0 <= i < |s| ==> IsBlank(s[i])
  }

  predicate IsWord(s: string) {
    s != [] && forall i :: 0 <= i < |s| ==> !IsBlank(s[i])
  }

  lemma {:induction false} WordMeasured(word: string, rest: string)
    requires (word == [] || IsWord(word)) && (rest == [] || IsBlank(rest[0]))
    ensures WordLength(word + rest) == |word|
  {
    if word != [] {
      assert (word + rest)[1..] == word[1..] + rest;
      WordMeasured(word[1..], rest);
    } else {
      assert word + rest == rest;
    }
  }

  lemma WordRead(word: string, rest: string)
    requires IsWord(word) && (rest == [] || IsBlank(rest[0]))
    ensures Fields(word + rest) == [word] + Fields(rest)
  {
    WordMeasured(word, rest);
    assert (word + rest)[..|word|] == word && (word + rest)[|word|..] == rest;
  }

  lemma {:induction false} BlanksSkipped(blanks: string, rest: string)
    requires AreBlanks(blanks)
    ensures Fields(blanks + rest) == Fields(rest)
  {
    if blanks != [] {
      assert (blanks + rest)[1..] == blanks[1..] + rest;
      BlanksSkipped(blanks[1..], rest);
    } else {
      assert blanks + rest == rest;
    }
  }

  /** Two words with blanks between them, or one word without. */
  lemma TwoWords(first: string, blanks: string, second: string)
    requires IsWord(first) && AreBlanks(blanks) && IsWord(second)
    ensures Fields(first + (blanks + second)) == if blanks == [] then [first + second] else [first, second]
  {
    hide Fields;
    NoWords();
    if blanks == [] {
      Joined(first, second);
      assert first + (blanks + second) == (first + second) + [];
      WordRead(first + second, []);
    } else {
      WordRead(first, blanks + second);
      BlanksSkipped(blanks, second);
      assert second + [] == second;
      WordRead(second, []);
    }
  }

  lemma NoWords()
    ensures Fields([]) == []
  {
  }

  lemma Joined(first: string, second: string)
    requires IsWord(first) && IsWord(second)
    ensures IsWord(first + second)
  {
  }

  /** An operand of a comparison has no blank in it. */
  lemma NumberIsWord(operand: string)
    requires IsNumber(operand)
    ensures IsWord(operand)
  {
    hide Whole, Power2;
    var i: nat :| i <= |operand| && NumberAt(operand, i);
    forall k | 0 <= k < |operand|
      ensures !IsBlank(operand[k])
    {
      if k < i {
        assert operand[..i][k] == operand[k];
      } else if k > i {
        assert operand[i + 1..][k - i - 1] == operand[k];
      }
    }
  }

  const SCORE := "quality_score"
  const COMPARISONS := {"==", "!=", ">=", "<=", ">", "<"}

  lemma ThreeWords(first: string, left: string, op: string, right: string, operand: string)
    requires IsWord(first) && AreBlanks(left) && IsWord(op) && AreBlanks(right) && IsWord(operand)
    ensures Fields(first + (left + (op + (right + operand)))) ==
      if left == "" && right == "" then [first + op + operand]
      else if left == "" then [first + op, operand]
      else if right == "" then [first, op + operand]
      else [first, op, operand]
  {
    hide Fields, IsWord;
    var end := right + operand;
    if left == "" {
      Joined(first, op);
      assert left + (op + end) == op + end;
      assert first + (op + end) == (first + op) + end;
      TwoWords(first + op, right, operand);
    } else {
      assert IsBlank((left + (op + end))[0]);
      TwoWords(op, right, operand);
      BlanksSkipped(left, op + end);
      WordRead(first, left + (op + end));
    }
  }

  lemma ComparisonWords(op: string, operand: string)
    requires op in COMPARISONS && (operand == "threshold" || IsNumber(operand))
    ensures IsWord(op) && IsWord(operand) && IsWord(SCORE) && SCORE + op != SCORE
  {
    if IsNumber(operand) {
      NumberIsWord(operand);
    }
    assert |SCORE + op| > |SCORE|;
  }

  /** Validation accepts a comparison with or without blanks beside its operator; it can be
      evaluated exactly when both are there. */
  lemma ComparisonReadableIff(left: string, op: string, right: string, operand: string)
    requires AreBlanks(left) && AreBlanks(right) && op in COMPARISONS && (operand == "threshold" || IsNumber(operand))
    ensures Readable(SCORE + (left + (op + (right + operand)))) <==> left != "" && right != ""
  {
    hide Fields, IsNumber, IsWord, AreBlanks;
    ComparisonWords(op, operand);
    ThreeWords(SCORE, left, op, right, operand);
    var all := SCORE + (left + (op + (right + operand)));
    assert all[1] == SCORE[1];
  }

  /** Conditions that hold on some metadata. */
  predicate CanHold(condition: string) {
    condition != "false" && Readable(condition)
  }

  function Evaluated(condition: string, verdict: Truth): Truth {
    if !Readable(condition) then Unreadable
    else if condition == "true" then Holds
    else if condition == "false" then Fails
    else verdict
  }

  predicate Usable(t: Transition) {
    t.action != "" && t.condition != ""
  }

  // ---- the machine ----

  function Enter(config: Config, stage: string, runs: map<string, nat>): Machine {
    if stage == "" then Ended(EmptyStage, runs)
    else if stage !in config then Ended(MissingStage(stage), runs)
    else Running(stage, runs, [])
  }

  function AfterSuccess(config: Config, t: Transition, verdict: Truth, runs: map<string, nat>): Machine {
    if !Usable(t) then Ended(BadTransition, runs)
    else match Evaluated(t.condition, verdict)
      case Unreadable => Ended(BadCondition, runs)
      case Fails => Ended(ConditionUnmet("on_success"), runs)
      case Holds =>
        if t.action == "next" then if t.next == "" then Ended(NextStageRequired, runs) else Enter(config, t.next, runs)
        else if t.action == "complete" then Ended(Completed, runs)
        else Ended(UnsupportedAction(t.action), runs)
  }

  function Described(reason: string): string {
    if reason == "" then "stage execution failed" else reason
  }

  function AfterFailure(s: Stage, stage: string, runs: map<string, nat>, failures: seq<Failure>,
                        reply: Reply): Machine {
    var attempt := Runs(runs, stage);
    var all := failures + [Failure(attempt, Described(reply.reason))];
    if !Usable(s.onFailure) then Ended(BadTransition, runs)
    else match Evaluated(s.onFailure.condition, reply.verdict)
      case Unreadable => Ended(BadCondition, runs)
      case Fails => Ended(ConditionUnmet("on_failure"), runs)
      case Holds =>
        if s.onFailure.action == "retry" then
          if attempt >= MaxAttempts(s) then Ended(GaveUp(all), runs)
          else if !reply.waited then Ended(WaitFailed, runs)
          else Running(stage, runs, all)
        else if s.onFailure.action == "fail" then Ended(GaveUp(all), runs)
        else Ended(UnsupportedAction(s.onFailure.action), runs)
  }

  /** One attempt. */
  function Step(config: Config, m: Machine, reply: Reply): Machine {
    if m.Ended? || m.stage !in config then m else
      var s := config[m.stage];
      var runs := m.runs[m.stage := Runs(m.runs, m.stage) + 1];
      if reply.cancelled then Ended(Cancelled, runs)
      else if reply.success then AfterSuccess(config, s.onSuccess, reply.verdict, runs)
      else AfterFailure(s, m.stage, runs, m.failures, reply)
  }

  function StepAll(config: Config, m: Machine, replies: seq<Reply>): Machine
    decreases |replies|
  {
    if replies == [] then m else StepAll(config, Step(config, m, replies[0]), replies[1..])
  }

  function Start(config: Config): Machine {
    Enter(config, "quality_gate", map[])
  }

  lemma {:induction false} EndedStays(config: Config, m: Machine, replies: seq<Reply>)
    requires m.Ended?
    ensures StepAll(config, m, replies) == m
    decreases |replies|
  {
    if replies != [] {
      EndedStays(config, m, replies[1..]);
    }
  }

  // ---- the loops ----

  /** Runs until the pipeline ends or the replies do. */
  method Execute(config: Config, replies: seq<Reply>) returns (ended: Option<Outcome>, stageRuns: map<string, nat>)
    ensures var m := StepAll(config, Start(config), replies);
      ended == (if m.Ended? then Some(m.outcome) else None) && stageRuns == m.runs
  {
    stageRuns := map[];
    var currentStage := "quality_gate";
    var used := 0;
    while true
      invariant 0 <= used <= |replies|
      invariant StepAll(config, Start(config), replies) ==
        StepAll(config, Enter(config, currentStage, stageRuns), replies[used..])
      decreases |replies| - used
    {
      if currentStage == "" {
        EndedStays(config, Ended(EmptyStage, stageRuns), replies[used..]);
        return Some(EmptyStage), stageRuns;
      }
      if currentStage !in config {
        EndedStays(config, Ended(MissingStage(currentStage), stageRuns), replies[used..]);
        return Some(MissingStage(currentStage)), stageRuns;
      }
      var next;
      ended, stageRuns, used, next := RunStage(config, currentStage, stageRuns, replies, used);
      if ended.Some? || next.None? {
        return;
      }
      currentStage := next.value;
    }
  }

  /** One visit to a stage: attempts until it ends the pipeline or moves on. */
  method RunStage(config: Config, stage: string, runs0: map<string, nat>, replies: seq<Reply>, used0: nat)
    returns (ended: Option<Outcome>, stageRuns: map<string, nat>, used: nat, next: Option<string>)
    requires stage in config && stage != "" && used0 <= |replies|
    ensures used0 <= used <= |replies| && (next.Some? ==> used > used0 && ended.None?)
    ensures var m := StepAll(config, Running(stage, runs0, []), replies[used0..]);
      (ended.Some? ==> m == Ended(ended.value, stageRuns)) &&
      (ended.None? && next.None? ==> m.Running? && m.runs == stageRuns) &&
      (next.Some? ==> m == StepAll(config, Enter(config, next.value, stageRuns), replies[used..]))
  {
    hide AfterSuccess, AfterFailure;
    var s := config[stage];
    var maxAttempts := if s.retry.maxAttempts <= 0 then 1 else s.retry.maxAttempts;
    var failures: seq<Failure> := [];
    stageRuns, used, ended, next := runs0, used0, None, None;
    while used < |replies|
      invariant used0 <= used <= |replies| && ended.None? && next.None?
      invariant StepAll(config, Running(stage, runs0, []), replies[used0..]) ==
        StepAll(config, Running(stage, stageRuns, failures), replies[used..])
      decreases |replies| - used
    {
      var reply := replies[used];
      NextReply(config, stage, stageRuns, failures, replies, used);
      stageRuns := stageRuns[stage := Runs(stageRuns, stage) + 1];
      var attempt := stageRuns[stage];
      used := used + 1;
      ghost var rest := replies[used..];
      if reply.cancelled {
        EndedStays(config, Ended(Cancelled, stageRuns), rest);
        return Some(Cancelled), stageRuns, used, None;
      }
      if reply.success {
        ended, next := TakeSuccess(config, s.onSuccess, reply.verdict, stageRuns);
        if ended.Some? {
          EndedStays(config, Ended(ended.value, stageRuns), rest);
        }
        return;
      }
      ended := TakeFailure(s, stage, stageRuns, failures, attempt, maxAttempts, reply);
      failures := failures + [Failure(attempt, Described(reply.reason))];
      if ended.Some? {
        EndedStays(config, Ended(ended.value, stageRuns), rest);
        return;
      }
    }
  }

  lemma NextReply(config: Config, stage: string, runs: map<string, nat>, failures: seq<Failure>, replies: seq<Reply>,
                  used: nat)
    requires stage in config && used < |replies|
    ensures var r := replies[used];
      var counted := runs[stage := Runs(runs, stage) + 1];
      StepAll(config, Running(stage, runs, failures), replies[used..]) == StepAll(config,
        if r.cancelled then Ended(Cancelled, counted)
        else if r.success then AfterSuccess(config, config[stage].onSuccess, r.verdict, counted)
        else AfterFailure(config[stage], stage, counted, failures, r), replies[used + 1..])
  {
    hide AfterSuccess, AfterFailure;
    assert replies[used..][1..] == replies[used + 1..];
  }

  /** Where a success takes the machine: to an end, or to the stage that is entered next. */
  method TakeSuccess(ghost config: Config, t: Transition, verdict: Truth, ghost runs: map<string, nat>)
    returns (ended: Option<Outcome>, next: Option<string>)
    ensures ended.None? <==> next.Some?
    ensures AfterSuccess(config, t, verdict, runs) ==
      if next.Some? then Enter(config, next.value, runs) else Ended(ended.value, runs)
  {
    if t.action == "" || t.condition == "" {
      return Some(BadTransition), None;
    }
    var truth := Evaluated(t.condition, verdict);
    if truth == Unreadable {
      return Some(BadCondition), None;
    }
    if truth == Fails {
      return Some(ConditionUnmet("on_success")), None;
    }
    match t.action {
      case "next" =>
        if t.next == "" {
          return Some(NextStageRequired), None;
        }
        return None, Some(t.next);
      case "complete" => return Some(Completed), None;
      case _ => return Some(UnsupportedAction(t.action)), None;
    }
  }

  /** Where a failure takes the machine: to an end, or to the next attempt. */
  method TakeFailure(s: Stage, ghost stage: string, ghost runs: map<string, nat>, failures: seq<Failure>, attempt: nat,
                     maxAttempts: nat, reply: Reply)
    returns (ended: Option<Outcome>)
    requires attempt == Runs(runs, stage) && maxAttempts == MaxAttempts(s)
    ensures AfterFailure(s, stage, runs, failures, reply) ==
      if ended.Some? then Ended(ended.value, runs)
      else Running(stage, runs, failures + [Failure(attempt, Described(reply.reason))])
  {
    var t := s.onFailure;
    if t.action == "" || t.condition == "" {
      return Some(BadTransition);
    }
    var all := failures + [Failure(attempt, Described(reply.reason))];
    var truth := Evaluated(t.condition, reply.verdict);
    if truth == Unreadable {
      return Some(BadCondition);
    }
    if truth == Fails {
      return Some(ConditionUnmet("on_failure"));
    }
    match t.action {
      case "retry" =>
        if attempt >= maxAttempts {
          return Some(GaveUp(all));
        }
        if !reply.waited {
          return Some(WaitFailed);
        }
        return None;
      case "fail" => return Some(GaveUp(all));
      case _ => return Some(UnsupportedAction(t.action));
    }
  }

  // ---- when a pipeline ends ----

  /** The stage a success of this one can lead to. */
  function Leads(config: Config, stage: string): Option<string> {
    if stage !in config then None else
      var t := config[stage].onSuccess;
      if t.action == "next" && CanHold(t.condition) && t.next != "" && t.next in config then Some(t.next) else None
  }

  /** Following the successes, the pipeline has exactly n more stages. */
  predicate EndsAfter(config: Config, stage: string, n: nat)
    decreases n
  {
    match Leads(config, stage)
    case None => n == 0
    case Some(next) => n > 0 && EndsAfter(config, next, n - 1)
  }

  function AttemptsOf(config: Config, stage: string): nat {
    if stage in config then MaxAttempts(config[stage]) else 1
  }

  function Later(config: Config, stage: string, n: nat): nat
    decreases n
  {
    match Leads(config, stage)
    case None => 0
    case Some(next) => if n == 0 then 0 else AttemptsOf(config, next) + Later(config, next, n - 1)
  }

  function Larger(a: int, b: int): int {
    if a > b then a else b
  }

  /** Attempts a machine has left at most. */
  function Potential(config: Config, n: nat, m: Machine): int {
    if m.Ended? then 0 else Larger(1, AttemptsOf(config, m.stage) - Runs(m.runs, m.stage)) + Later(config, m.stage, n)
  }

  predicate Stayed(config: Config, n: nat, before: Machine, after: Machine) {
    before.Running? && after.Running? && after.stage == before.stage &&
    Potential(config, n, after) < Potential(config, n, before)
  }

  predicate Moved(config: Config, n: nat, before: Machine, after: Machine) {
    before.Running? && after.Running? && n > 0 && Leads(config, before.stage) == Some(after.stage) &&
    after.stage in config &&
    EndsAfter(config, after.stage, n - 1) && Potential(config, n - 1, after) < Potential(config, n, before)
  }

  /** Each attempt uses up potential. */
  lemma AttemptUsesUp(config: Config, n: nat, m: Machine, reply: Reply)
    requires m.Running? && m.stage in config && EndsAfter(config, m.stage, n)
    ensures var after := Step(config, m, reply);
      after.Ended? || Stayed(config, n, m, after) || Moved(config, n, m, after)
  {
  }

  lemma {:induction false} EndsWithin(config: Config, n: nat, m: Machine, replies: seq<Reply>)
    requires m.Running? ==> m.stage in config && EndsAfter(config, m.stage, n)
    requires |replies| >= Potential(config, n, m)
    ensures StepAll(config, m, replies).Ended?
    decreases |replies|
  {
    hide Step, Potential, EndsAfter;
    if m.Ended? {
      EndedStays(config, m, replies);
    } else {
      PotentialPositive(config, n, m);
      AttemptUsesUp(config, n, m, replies[0]);
      var after := Step(config, m, replies[0]);
      if after.Ended? {
        EndedStays(config, after, replies[1..]);
      } else if Stayed(config, n, m, after) {
        EndsWithin(config, n, after, replies[1..]);
      } else {
        EndsWithin(config, n - 1, after, replies[1..]);
      }
    }
  }

  lemma PotentialPositive(config: Config, n: nat, m: Machine)
    requires m.Running?
    ensures Potential(config, n, m) >= 1
  {
  }

  /** The chain of successes from the stage comes to an end. */
  ghost predicate ChainEnds(config: Config, stage: string) {
    exists n: nat :: EndsAfter(config, stage, n)
  }

  lemma ChainGoesOn(config: Config, stage: string)
    requires !ChainEnds(config, stage)
    ensures Leads(config, stage).Some? && !ChainEnds(config, Leads(config, stage).value)
  {
    assert !EndsAfter(config, stage, 0);
    var next := Leads(config, stage).value;
    forall k: nat
      ensures !EndsAfter(config, next, k)
    {
      assert !EndsAfter(config, stage, k + 1);
    }
  }

  const GO_ON := Reply(false, true, "", Holds, true)

  lemma {:induction false} CanRunForever(config: Config, m: Machine, n: nat) returns (replies: seq<Reply>)
    requires m.Running? && m.stage in config && !ChainEnds(config, m.stage)
    ensures |replies| == n && StepAll(config, m, replies).Running?
    decreases n
  {
    hide ChainEnds;
    if n == 0 {
      replies := [];
    } else {
      ChainGoesOn(config, m.stage);
      var rest := CanRunForever(config, Step(config, m, GO_ON), n - 1);
      replies := [GO_ON] + rest;
      assert replies[1..] == rest;
    }
  }

  ghost predicate EndsBy(config: Config, bound: nat) {
    forall replies :: |replies| >= bound ==> StepAll(config, Start(config), replies).Ended?
  }

  /** A pipeline has a bound on its attempts exactly when its chain of successes comes to
      an end; a configuration that passes validation need not have one. */
  lemma BoundedIff(config: Config)
    ensures (exists bound: nat :: EndsBy(config, bound)) <==>
      ("quality_gate" in config ==> ChainEnds(config, "quality_gate"))
  {
    hide Step, EndsAfter, Potential;
    var start := Start(config);
    if "quality_gate" !in config {
      forall replies
        ensures StepAll(config, start, replies).Ended?
      {
        EndedStays(config, start, replies);
      }
      assert EndsBy(config, 0);
    } else if ChainEnds(config, "quality_gate") {
      var n: nat :| EndsAfter(config, "quality_gate", n);
      PotentialPositive(config, n, start);
      var bound: nat := Potential(config, n, start);
      forall replies | |replies| >= bound
        ensures StepAll(config, start, replies).Ended?
      {
        EndsWithin(config, n, start, replies);
      }
      assert EndsBy(config, bound);
    } else {
      forall bound: nat
        ensures !EndsBy(config, bound)
      {
        var replies := CanRunForever(config, start, bound);
      }
    }
  }

  // ---- how often a stage runs ----

  /** A stage that lies n stages before the end lies nowhere else. */
  lemma {:induction false} OneDistance(config: Config, stage: string, m: nat, n: nat)
    requires EndsAfter(config, stage, m) && EndsAfter(config, stage, n)
    ensures m == n
    decreases m
  {
    if m > 0 {
      OneDistance(config, Leads(config, stage).value, m - 1, n - 1);
    }
  }

  /** The stages that successes lead to from here. */
  function Ahead(config: Config, stage: string, n: nat): set<string>
    decreases n
  {
    match Leads(config, stage)
    case None => {}
    case Some(next) => if n == 0 then {} else {next} + Ahead(config, next, n - 1)
  }

  lemma {:induction false} AheadIsNearer(config: Config, stage: string, n: nat, s: string)
    requires EndsAfter(config, stage, n) && s in Ahead(config, stage, n)
    ensures s in config && exists k: nat :: k < n && EndsAfter(config, s, k)
    decreases n
  {
    var next := Leads(config, stage).value;
    if s == next {
      assert EndsAfter(config, s, n - 1);
    } else {
      AheadIsNearer(config, next, n - 1, s);
    }
  }

  /** A chain that ends does not come back: checking |config| stages is enough. */
  lemma NotAheadOfItself(config: Config, stage: string, n: nat)
    requires EndsAfter(config, stage, n)
    ensures stage !in Ahead(config, stage, n)
  {
    if stage in Ahead(config, stage, n) {
      AheadIsNearer(config, stage, n, stage);
      var k: nat :| k < n && EndsAfter(config, stage, k);
      OneDistance(config, stage, k, n);
    }
  }

  lemma {:induction false} ChainIsShort(config: Config, stage: string, n: nat)
    requires EndsAfter(config, stage, n) && stage in config
    ensures |Ahead(config, stage, n)| == n && n < |config.Keys|
    decreases n
  {
    AheadCounted(config, stage, n);
    NotAheadOfItself(config, stage, n);
    forall s | s in Ahead(config, stage, n)
      ensures s in config
    {
      AheadIsNearer(config, stage, n, s);
    }
    var all := Ahead(config, stage, n) + {stage};
    assert config.Keys == all + (config.Keys - all);
  }

  lemma {:induction false} AheadCounted(config: Config, stage: string, n: nat)
    requires EndsAfter(config, stage, n)
    ensures |Ahead(config, stage, n)| == n
    decreases n
  {
    if n > 0 {
      var next := Leads(config, stage).value;
      AheadCounted(config, next, n - 1);
      NotAheadOfItself(config, next, n - 1);
    }
  }

  predicate FewRuns(config: Config, runs: map<string, nat>) {
    forall s :: s in config ==> Runs(runs, s) <= AttemptsOf(config, s)
  }

  predicate UntouchedAhead(config: Config, n: nat, m: Machine) {
    m.Ended? ||
    (m.stage in config && EndsAfter(config, m.stage, n) && Runs(m.runs, m.stage) < AttemptsOf(config, m.stage) &&
     forall s :: s in Ahead(config, m.stage, n) ==> Runs(m.runs, s) == 0)
  }

  /** An attempt is counted for its stage; a stage that is tried again has attempts left. */
  lemma AttemptCounted(config: Config, m: Machine, reply: Reply)
    requires m.Running? && m.stage in config
    ensures var after := Step(config, m, reply);
      after.runs == m.runs[m.stage := Runs(m.runs, m.stage) + 1] &&
      (after.Running? && Leads(config, m.stage) != Some(after.stage) ==>
         after.stage == m.stage && Runs(after.runs, m.stage) < AttemptsOf(config, m.stage))
  {
  }

  lemma StepKeepsFew(config: Config, n: nat, m: Machine, reply: Reply)
    requires m.Running? && FewRuns(config, m.runs) && UntouchedAhead(config, n, m)
    ensures var after := Step(config, m, reply);
      FewRuns(config, after.runs) &&
      (UntouchedAhead(config, n, after) || (n > 0 && UntouchedAhead(config, n - 1, after)))
  {
    hide Step, Potential;
    NotAheadOfItself(config, m.stage, n);
    AttemptUsesUp(config, n, m, reply);
    AttemptCounted(config, m, reply);
    var after := Step(config, m, reply);
    if after.Running? && !Stayed(config, n, m, after) {
      NotAheadOfItself(config, after.stage, n - 1);
    }
  }

  lemma {:induction false} RunsStayFew(config: Config, n: nat, m: Machine, replies: seq<Reply>)
    requires FewRuns(config, m.runs) && UntouchedAhead(config, n, m)
    ensures FewRuns(config, StepAll(config, m, replies).runs)
    decreases |replies|
  {
    hide Step, FewRuns, UntouchedAhead;
    if m.Ended? {
      EndedStays(config, m, replies);
    } else if replies != [] {
      StepKeepsFew(config, n, m, replies[0]);
      var after := Step(config, m, replies[0]);
      RunsStayFew(config, if UntouchedAhead(config, n, after) then n else n - 1, after, replies[1..]);
    }
  }

  /** Without a circle of successes no stage runs more often than its retry setting allows. */
  lemma StageRunsBounded(config: Config, replies: seq<Reply>, stage: string)
    requires ("quality_gate" in config ==> ChainEnds(config, "quality_gate")) && stage in config
    ensures Runs(StepAll(config, Start(config), replies).runs, stage) <= MaxAttempts(config[stage])
  {
    hide StepAll, EndsAfter;
    if "quality_gate" in config {
      var n: nat :| EndsAfter(config, "quality_gate", n);
      RunsStayFew(config, n, Start(config), replies);
    } else {
      EndedStays(config, Start(config), replies);
    }
  }

  // ---- retries, whatever the configuration ----

  predicate IsRetry(config: Config, m: Machine, reply: Reply, stage: string) {
    m.Running? && m.stage == stage && !reply.success && Step(config, m, reply).Running?
  }

  /** Failures of a stage that were answered with a retry. */
  function Retries(config: Config, m: Machine, replies: seq<Reply>, stage: string): nat
    decreases |replies|
  {
    if replies == [] then 0 else
      (if IsRetry(config, m, replies[0], stage) then 1 else 0) +
      Retries(config, Step(config, m, replies[0]), replies[1..], stage)
  }

  lemma OneRetry(config: Config, m: Machine, reply: Reply, stage: string)
    requires stage in config && (m.Running? ==> m.stage in config)
    ensures var after := Step(config, m, reply);
      (after.Running? ==> after.stage in config) && Runs(after.runs, stage) >= Runs(m.runs, stage) &&
      (IsRetry(config, m, reply, stage) ==>
        Runs(after.runs, stage) == Runs(m.runs, stage) + 1 < MaxAttempts(config[stage]))
  {
  }

  lemma {:induction false} RetriesFrom(config: Config, m: Machine, replies: seq<Reply>, stage: string)
    requires stage in config && (m.Running? ==> m.stage in config)
    ensures Retries(config, m, replies, stage) <= Larger(0, MaxAttempts(config[stage]) - 1 - Runs(m.runs, stage))
    decreases |replies|
  {
    hide Step, IsRetry, MaxAttempts, Runs;
    if replies != [] {
      OneRetry(config, m, replies[0], stage);
      RetriesFrom(config, Step(config, m, replies[0]), replies[1..], stage);
    }
  }

  /** Attempts add up over all visits to a stage, so its retries never exceed the setting,
      even when the pipeline goes in circles. */
  lemma RetriesBounded(config: Config, replies: seq<Reply>, stage: string)
    requires stage in config
    ensures Retries(config, Start(config), replies, stage) <= MaxAttempts(config[stage]) - 1
  {
    RetriesFrom(config, Start(config), replies, stage);
  }

  // ---- the delay before a retry ----

  function RetryDelay(r: Retry, attempt: int): int {
    if attempt <= 1 then 0 else
      var delay := r.initialDelayMs + if r.backoffMs > 0 then (attempt - 2) * r.backoffMs else 0;
      var capped := if r.maxDelayMs > 0 && delay > r.maxDelayMs then r.maxDelayMs else delay;
      if capped < 0 then 0 else capped
  }

  /** Delays are never negative, never above the cap, and never shrink from one attempt to
      a later one. */
  lemma DelayGrows(r: Retry, a: int, b: int)
    requires a <= b
    ensures 0 <= RetryDelay(r, a) <= RetryDelay(r, b)
    ensures r.maxDelayMs > 0 ==> RetryDelay(r, b) <= r.maxDelayMs
  {
    if a > 1 && r.backoffMs > 0 {
      BackoffGrows(a - 2, b - 2, r.backoffMs);
    }
  }

  /** The first retry waits the initial delay, each later one the backoff longer, up to the cap. */
  lemma DelaySteps(r: Retry, attempt: int)
    requires r.initialDelayMs >= 0
    ensures RetryDelay(r, 2) == Capped(r, r.initialDelayMs)
    ensures attempt >= 2 ==> RetryDelay(r, attempt + 1) == Capped(r, RetryDelay(r, attempt) + Larger(0, r.backoffMs))
  {
    if attempt >= 2 && r.backoffMs > 0 {
      BackoffGrows(0, attempt - 2, r.backoffMs);
      assert (attempt + 1 - 2) * r.backoffMs == (attempt - 2) * r.backoffMs + r.backoffMs;
    }
  }

  function Capped(r: Retry, delay: int): int {
    if r.maxDelayMs > 0 && delay > r.maxDelayMs then r.maxDelayMs else delay
  }

  lemma BackoffGrows(a: int, b: int, k: int)
    requires a <= b && k > 0
    ensures a * k <= b * k
  {
  }
}
