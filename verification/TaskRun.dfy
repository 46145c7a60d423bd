/** One task from dispatch to its final status (internal/agent/loop.go, runTask): gates,
    the retry loop around the runner, review, and landing under the landing lock.
    Every call that can fail does so when the environment says so, at any point. */
module TaskRun {
  import opened Contracts
  import opened StateStore
  import opened StoreHistory
  import opened RunLife
  import opened Wrappers

  datatype RunStatus = RunCompleted | RunBlocked | RunFailed | RunOther
  datatype Verdict = NoVerdict | Passed | FailedVerdict

  /** What a runner answers; modelFault and reviewText are what the classifiers of a
      failed result find in it. */
  datatype Reply = Reply(status: RunStatus, reviewReady: bool, verdict: Verdict, modelFault: bool, reviewText: bool)

  datatype Gate = GatePasses | GateBlocks | GateBreaks

  /** The environment, asked by the number of calls made so far. */
  datatype Env = Env(fails: nat -> bool, reply: nat -> Reply, gate: nat -> Gate, conflict: nat -> bool)

  datatype Options = Options(
    tddMode: bool, hasClone: bool, hasVcs: bool, requireReview: bool, mergeOnSuccess: bool,
    maxRetries: int, reviewRetries: int, completionRetries: int)

  datatype Call =
    | Prepare | QualityGate | TestsGate | Clone | Cleanup | Branch
    | Implement | Review | Remediate | QcGate
    | SetStatus(to: TaskStatus) | SetData
    | Record(op: Op)
    | LockLanding | UnlockLanding | CommitAll | MergeToMain | PushMain

  datatype Entry = Entry(call: Call, ok: bool)

  datatype Summary = Summary(completed: nat, blocked: nat, failed: nat)
  datatype Outcome = Outcome(summary: Summary, err: bool)

  const NOTHING := Summary(0, 0, 0)

  function TotalProcessed(s: Summary): nat {
    s.completed + s.blocked + s.failed
  }

  function Positive(n: int): nat {
    if n > 0 then n else 0
  }

  /** Two runs without any retry budget (the first, and one on the fallback model), and
      one more for each retry that is left. */
  function ImplementBound(o: Options): nat {
    2 + Positive(o.maxRetries - o.reviewRetries) + Positive(o.maxRetries - o.completionRetries)
  }

  predicate Merging(o: Options) {
    o.mergeOnSuccess && o.hasVcs
  }

  // ---- watching a trace ----

  /** The landing lock and what was merged and pushed under it. */
  datatype Landing = Landing(merges: nat, pushes: nat, holding: bool, merged: bool, pushed: bool)

  /** phase: where the recorded operations, all on the task, have put it.  noted: the data was
      written since.  ordered: so far the record came before the status it stands for, and the
      status and the data before the record was cleared. */
  datatype Books = Books(phase: Option<Phase>, status: Option<TaskStatus>, noted: bool, ordered: bool)

  /** clean: no Closed so far without a merge and a push that succeeded under the lock
      still held. */
  datatype Monitor = Monitor(task: TaskId, implements: nat, clean: bool, landing: Landing, books: Books)

  function Start(task: TaskId): Monitor {
    Monitor(task, 0, true, Landing(0, 0, false, false, false), Books(Some(Flying), None, false, true))
  }

  function WatchLanding(l: Landing, e: Entry): Landing {
    match e.call
    case LockLanding => l.(holding := true, merged := false, pushed := false)
    case UnlockLanding => l.(holding := false, merged := false, pushed := false)
    case MergeToMain => l.(merges := l.merges + 1, merged := e.ok && l.holding, pushed := false)
    case PushMain => l.(pushes := l.pushes + 1, pushed := e.ok && l.merged)
    case _ => l
  }

  predicate StatusInOrder(b: Books, to: TaskStatus) {
    (to == Blocked ==> b.phase == Some(Stuck)) && (to == Closed ==> b.phase == Some(Landed)) &&
    (to == Failed ==> b.phase == Some(Flying) && b.noted)
  }

  predicate RecordInOrder(b: Books, op: Op) {
    (op.ClearTerminal? && b.phase == Some(Stuck) ==> b.status == Some(Blocked) && b.noted) &&
    (op.ClearTerminal? && b.phase == Some(Landed) ==> b.status == Some(Closed)) &&
    (op.ClearInFlight? ==> b.status == Some(Failed))
  }

  function WatchBooks(task: TaskId, b: Books, e: Entry): Books {
    match e.call
    case Implement => b.(noted := false)
    case SetData => b.(noted := b.noted || e.ok)
    case SetStatus(to) =>
      b.(status := if e.ok then Some(to) else b.status, ordered := b.ordered && StatusInOrder(b, to))
    case Record(op) =>
      Books(if !e.ok then b.phase else if b.phase.Some? && IsOn(op, task) then After(b.phase.value, op) else None,
            b.status, b.noted && !op.MarkBlocked?, b.ordered && RecordInOrder(b, op))
    case _ => b
  }

  function Watch(m: Monitor, e: Entry): Monitor {
    Monitor(m.task, m.implements + (if e.call.Implement? then 1 else 0),
            m.clean && (e.call == SetStatus(Closed) ==> m.landing.pushed),
            WatchLanding(m.landing, e), WatchBooks(m.task, m.books, e))
  }

  function WatchAll(task: TaskId, trace: seq<Entry>): (m: Monitor)
    ensures m.task == task
    decreases |trace|
  {
    if trace == [] then Start(task) else Watch(WatchAll(task, trace[..|trace| - 1]), trace[|trace| - 1])
  }

  /** What the rest of the loop relies on: the operations that went through follow the
      phases of the task, and a run that ends without an error leaves it idle. */
  predicate RunsAs(task: TaskId, trace: seq<Entry>, ok: bool) {
    var phase := WatchAll(task, trace).books.phase;
    phase.Some? && (ok ==> phase == Some(Idle))
  }

  lemma WatchNothing(task: TaskId)
    ensures WatchAll(task, []) == Start(task)
  {
  }

  lemma WatchAppend(task: TaskId, trace: seq<Entry>, e: Entry)
    ensures WatchAll(task, trace + [e]) == Watch(WatchAll(task, trace), e)
  {
    assert (trace + [e])[..|trace|] == trace;
  }

  // ---- hearing a trace ----

  /** What the environment was asked: where the turn's implementation, its reviews and the
      last gate stand in the trace, how many earlier turns each kind of trouble ended, whether
      the tests gate was asked, and whether the turn's push went through.  lawful: every call so far had its reason. */
  datatype Hearing = Hearing(
    turn: Option<nat>, reviews: seq<nat>, gate: Option<nat>,
    modelTroubles: nat, reviewTroubles: nat, completionTroubles: nat, tested: bool, landed: bool, lawful: bool)

  datatype Trouble = NoTrouble | ModelTrouble | ReviewTrouble | CompletionTrouble

  const SILENCE := Hearing(None, [], None, 0, 0, 0, false, false, true)

  function LastOf(indices: seq<nat>): nat
    requires indices != []
  {
    indices[|indices| - 1]
  }

  /** The status the turn comes to: that of the last review when there was one, and a
      completed review without a pass is a failure. */
  function TurnStatus(env: Env, h: Hearing): RunStatus
    requires h.turn.Some?
  {
    if h.reviews == [] then env.reply(h.turn.value).status
    else
      var r := env.reply(LastOf(h.reviews));
      if r.status == RunCompleted && !r.reviewReady then RunFailed else r.status
  }

  /** A review that completed and says neither pass nor fail is asked once more. */
  predicate SaysNothing(r: Reply) {
    r.status == RunCompleted && !r.reviewReady && r.verdict == NoVerdict
  }

  /** All was asked in the turn that has to be. */
  predicate Answered(env: Env, o: Options, h: Hearing) {
    h.turn.Some? &&
    (env.reply(h.turn.value).status == RunCompleted && o.requireReview ==>
      h.reviews != [] && (|h.reviews| == 1 ==> !SaysNothing(env.reply(h.reviews[0]))))
  }

  /** What ails a failed turn: its review, the model when that is the first time, what the
      runner says of a review, or the completion. */
  function TroubleOf(env: Env, h: Hearing): Trouble {
    if h.turn.None? || TurnStatus(env, h) != RunFailed then NoTrouble
    else
      var r := env.reply(h.turn.value);
      if h.reviews != [] then ReviewTrouble
      else if r.modelFault && h.modelTroubles == 0 then ModelTrouble
      else if r.verdict == FailedVerdict || r.reviewText then ReviewTrouble
      else CompletionTrouble
  }

  /** Each trouble has its own budget. */
  predicate BudgetLasts(env: Env, o: Options, h: Hearing) {
    match TroubleOf(env, h)
    case NoTrouble => false
    case ModelTrouble => true
    case ReviewTrouble => o.reviewRetries + h.reviewTroubles < o.maxRetries
    case CompletionTrouble => o.completionRetries + h.completionTroubles < o.maxRetries
  }

  predicate GateSays(env: Env, h: Hearing, answer: Gate) {
    h.gate.Some? && env.gate(h.gate.value) == answer
  }

  /** The turn completed, its review too where one is asked for, and the gate after it passed. */
  predicate Approved(env: Env, o: Options, h: Hearing) {
    Answered(env, o, h) && TurnStatus(env, h) == RunCompleted && GateSays(env, h, GatePasses)
  }

  predicate Done(env: Env, o: Options, h: Hearing) {
    Approved(env, o, h) && (Merging(o) ==> h.landed)
  }

  /** A gate blocks, the turn came to blocked, its completion failed once too often, or an
      approved task does not land. */
  predicate Blocking(env: Env, o: Options, h: Hearing) {
    GateSays(env, h, GateBlocks) ||
    (Answered(env, o, h) && TurnStatus(env, h) == RunBlocked) ||
    (Answered(env, o, h) && TroubleOf(env, h) == CompletionTrouble && !BudgetLasts(env, o, h)) ||
    (Approved(env, o, h) && Merging(o) && !h.landed)
  }

  /** The turn's review failed once too often, or its status is none of the others. */
  predicate Failing(env: Env, o: Options, h: Hearing) {
    Answered(env, o, h) &&
    (TurnStatus(env, h) == RunOther || (TroubleOf(env, h) == ReviewTrouble && !BudgetLasts(env, o, h)))
  }

  /** The first turn, after the gates, or one more after a failed turn with a budget. */
  predicate MayTry(env: Env, o: Options, h: Hearing) {
    if h.turn.None? then GateSays(env, h, GatePasses) && (o.tddMode ==> h.tested)
    else Answered(env, o, h) && BudgetLasts(env, o, h)
  }

  /** The reason a call must have. */
  predicate HasReason(env: Env, o: Options, h: Hearing, call: Call) {
    match call
    case QualityGate => h.turn.None? && h.gate.None?
    case TestsGate => h.turn.None? && o.tddMode && GateSays(env, h, GatePasses)
    case Implement => MayTry(env, o, h)
    case Review =>
      o.requireReview && h.turn.Some? && env.reply(h.turn.value).status == RunCompleted &&
      (h.reviews != [] ==> |h.reviews| == 1 && SaysNothing(env.reply(h.reviews[0])))
    case QcGate => h.gate.None? && Answered(env, o, h) && TurnStatus(env, h) == RunCompleted
    case LockLanding => Approved(env, o, h) && Merging(o)
    case CommitAll => Approved(env, o, h) && Merging(o)
    case Remediate => Approved(env, o, h) && Merging(o)
    case MergeToMain => Approved(env, o, h) && Merging(o)
    case PushMain => Approved(env, o, h) && Merging(o)
    case SetStatus(to) =>
      (match to
       case Open => Answered(env, o, h) && BudgetLasts(env, o, h) && TroubleOf(env, h) != ModelTrouble
       case InProgress => MayTry(env, o, h)
       case Blocked => Blocking(env, o, h)
       case Closed => Done(env, o, h)
       case Failed => Failing(env, o, h))
    case Record(op) =>
      (match op
       case MarkCompleted(_) => Approved(env, o, h)
       case MarkBlocked(_, _) => Blocking(env, o, h)
       case _ => true)
    case _ => true
  }

  /** A new turn: the trouble of the last one is counted. */
  function NextTurn(env: Env, h: Hearing, i: nat): Hearing {
    Counted(env, h).(turn := Some(i), reviews := [], gate := None, landed := false)
  }

  function Counted(env: Env, h: Hearing): Hearing {
    match TroubleOf(env, h)
    case NoTrouble => h
    case ModelTrouble => h.(modelTroubles := h.modelTroubles + 1)
    case ReviewTrouble => h.(reviewTroubles := h.reviewTroubles + 1)
    case CompletionTrouble => h.(completionTroubles := h.completionTroubles + 1)
  }

  function Hear(env: Env, o: Options, h0: Hearing, i: nat, e: Entry): Hearing {
    var h := h0.(lawful := h0.lawful && HasReason(env, o, h0, e.call));
    match e.call
    case Implement => NextTurn(env, h, i)
    case Review => h.(reviews := h.reviews + [i])
    case QualityGate => h.(gate := Some(i))
    case TestsGate => h.(gate := Some(i), tested := true)
    case QcGate => h.(gate := Some(i))
    case PushMain => h.(landed := e.ok)
    case _ => h
  }

  function HearAll(env: Env, o: Options, trace: seq<Entry>): Hearing
    decreases |trace|
  {
    if trace == [] then SILENCE
    else Hear(env, o, HearAll(env, o, trace[..|trace| - 1]), |trace| - 1, trace[|trace| - 1])
  }

  lemma HearNothing(env: Env, o: Options)
    ensures HearAll(env, o, []) == SILENCE
  {
  }

  lemma HearAppend(env: Env, o: Options, trace: seq<Entry>, e: Entry)
    ensures HearAll(env, o, trace + [e]) == Hear(env, o, HearAll(env, o, trace), |trace|, e)
  {
    assert (trace + [e])[..|trace|] == trace;
  }

  /** Calls that ask for nothing a later reason goes back to. */
  predicate IsQuiet(call: Call) {
    !(call.Implement? || call.Review? || call.QualityGate? || call.TestsGate? || call.QcGate? || call.PushMain?)
  }

  lemma HearQuietly(env: Env, o: Options, h: Hearing, i: nat, e: Entry)
    ensures IsQuiet(e.call) && HasReason(env, o, h, e.call) ==> Hear(env, o, h, i, e) == h
  {
  }

  function WithLanding(h: Hearing, landed: bool): Hearing {
    h.(landed := landed)
  }

  lemma AfterQualityGate(env: Env, o: Options, i: nat)
    ensures var after := Hear(env, o, SILENCE, i, Entry(QualityGate, true));
      after == SILENCE.(gate := Some(i)) && (env.gate(i) == GateBlocks ==> Blocking(env, o, after)) &&
      (env.gate(i) == GatePasses && !o.tddMode ==> MayTry(env, o, after))
  {
  }

  lemma AfterTestsGate(env: Env, o: Options, h: Hearing, i: nat)
    requires h.gate.Some? && h == SILENCE.(gate := h.gate) && env.gate(h.gate.value) == GatePasses && o.tddMode
    ensures var after := Hear(env, o, h, i, Entry(TestsGate, true));
      after == SILENCE.(gate := Some(i), tested := true) && (env.gate(i) == GateBlocks ==> Blocking(env, o, after)) &&
      (env.gate(i) == GatePasses ==> MayTry(env, o, after))
  {
  }

  lemma AfterQcGate(env: Env, o: Options, h: Hearing, i: nat)
    requires Answered(env, o, h) && TurnStatus(env, h) == RunCompleted && h.gate.None?
    ensures var after := Hear(env, o, h, i, Entry(QcGate, true));
      after == h.(gate := Some(i)) && (env.gate(i) == GateBlocks ==> Blocking(env, o, after)) &&
      (env.gate(i) == GatePasses ==> Approved(env, o, after))
  {
  }

  lemma AfterLanding(env: Env, o: Options, h: Hearing, landed: bool)
    requires Approved(env, o, h)
    ensures var after := WithLanding(h, landed);
      after.lawful == h.lawful && (landed ==> Done(env, o, after)) &&
      (!landed && Merging(o) ==> Blocking(env, o, after)) &&
      (!Merging(o) ==> Done(env, o, h))
  {
  }

  lemma AfterImplement(env: Env, o: Options, h: Hearing, i: nat, fallback: bool, reviews: int, completions: int)
    requires h.lawful && MayTry(env, o, h) && Spent(env, o, h, fallback, reviews, completions)
    ensures Hear(env, o, h, i, Entry(Implement, false)) == Hear(env, o, h, i, Entry(Implement, true))
    ensures var after := Hear(env, o, h, i, Entry(Implement, true));
      after.lawful && after.turn == Some(i) && after.reviews == [] && after.gate.None? && !after.landed &&
      TurnStatus(env, after) == env.reply(i).status &&
      (env.reply(i).status != RunCompleted || !o.requireReview ==> Answered(env, o, after)) &&
      Tallied(o, after, fallback, reviews, completions)
  {
  }

  /** The counters of the loop are those of the earlier turns. */
  predicate Tallied(o: Options, h: Hearing, fallback: bool, reviews: int, completions: int) {
    (fallback <==> h.modelTroubles > 0) && reviews == o.reviewRetries + h.reviewTroubles &&
    completions == o.completionRetries + h.completionTroubles
  }

  /** The retry counters are those of the troubles so far, the turn's own included. */
  predicate Spent(env: Env, o: Options, h: Hearing, fallback: bool, reviews: int, completions: int) {
    Tallied(o, Counted(env, h), fallback, reviews, completions)
  }

  lemma TurnEnds(env: Env, o: Options, h: Hearing)
    requires Answered(env, o, h)
    ensures TurnStatus(env, h) == RunBlocked ==> Blocking(env, o, h)
    ensures TurnStatus(env, h) == RunOther ==> Failing(env, o, h)
  {
  }

  lemma NothingSpent(env: Env, o: Options, h: Hearing)
    requires h.turn.None? && h.modelTroubles == h.reviewTroubles == h.completionTroubles == 0
    ensures Spent(env, o, h, false, o.reviewRetries, o.completionRetries)
  {
  }

  /** How the loop tells the troubles of a failed turn apart. */
  lemma FailedTurn(env: Env, o: Options, h: Hearing, result: Reply, reviewFailed: bool, fallback: bool, reviews: int,
                   completions: int)
    requires Answered(env, o, h) && TurnStatus(env, h) == RunFailed && Tallied(o, h, fallback, reviews, completions)
    requires (reviewFailed <==> h.reviews != []) && (!reviewFailed ==> result == env.reply(h.turn.value))
    ensures var trouble := TroubleOf(env, h);
      if !reviewFailed && !fallback && result.modelFault then
        trouble == ModelTrouble && BudgetLasts(env, o, h) && MayTry(env, o, h) &&
        Spent(env, o, h, true, reviews, completions)
      else if reviewFailed || result.verdict == FailedVerdict || result.reviewText then
        trouble == ReviewTrouble && (BudgetLasts(env, o, h) <==> reviews < o.maxRetries) &&
        (reviews < o.maxRetries ==> MayTry(env, o, h)) && (reviews >= o.maxRetries ==> Failing(env, o, h)) &&
        Spent(env, o, h, fallback, reviews + 1, completions)
      else
        trouble == CompletionTrouble && (BudgetLasts(env, o, h) <==> completions < o.maxRetries) &&
        (completions < o.maxRetries ==> MayTry(env, o, h)) && (completions >= o.maxRetries ==> Blocking(env, o, h)) &&
        Spent(env, o, h, fallback, reviews, completions + 1)
  {
  }

  /** An error-free end counts what the answers come to. */
  predicate CountsAsAnswered(env: Env, o: Options, h: Hearing, s: Summary) {
    (s.completed == 1 ==> Done(env, o, h)) && (s.blocked == 1 ==> Blocking(env, o, h)) &&
    (s.failed == 1 ==> Failing(env, o, h))
  }

  lemma CompletedPhase(task: TaskId)
    ensures IsOn(MarkCompleted(task), task) && After(Flying, MarkCompleted(task)) == Some(Landed)
  {
  }

  lemma BlockedPhases(task: TaskId)
    ensures IsOn(MarkBlocked(task, Some(map[])), task) && IsOn(ClearTerminal(task), task)
    ensures After(Flying, MarkBlocked(task, Some(map[]))) == After(Landed, MarkBlocked(task, Some(map[]))) ==
      Some(Stuck)
    ensures After(Stuck, ClearTerminal(task)) == Some(Idle)
  {
  }

  lemma BlockingAllows(env: Env, o: Options, h: Hearing, task: TaskId)
    requires Blocking(env, o, h)
    ensures HasReason(env, o, h, Record(MarkBlocked(task, Some(map[])))) && HasReason(env, o, h, SetStatus(Blocked)) &&
      HasReason(env, o, h, SetData) && HasReason(env, o, h, Record(ClearTerminal(task)))
    ensures CountsAsAnswered(env, o, h, NOTHING.(blocked := 1))
  {
    hide Blocking;
  }

  lemma FailingAllows(env: Env, o: Options, h: Hearing, task: TaskId)
    requires Failing(env, o, h)
    ensures HasReason(env, o, h, SetStatus(Failed)) && HasReason(env, o, h, SetData) &&
      HasReason(env, o, h, Record(ClearInFlight(task)))
    ensures CountsAsAnswered(env, o, h, NOTHING.(failed := 1))
  {
    hide Failing;
  }

  lemma DoneAllows(env: Env, o: Options, h: Hearing, task: TaskId)
    requires Done(env, o, h)
    ensures HasReason(env, o, h, SetStatus(Closed)) && HasReason(env, o, h, Record(ClearTerminal(task)))
    ensures CountsAsAnswered(env, o, h, NOTHING.(completed := 1))
  {
    hide Done;
  }

  lemma ApprovalAllows(env: Env, o: Options, h: Hearing)
    requires Approved(env, o, h) && Merging(o)
    ensures HasReason(env, o, h, LockLanding) && HasReason(env, o, h, CommitAll) && HasReason(env, o, h, Remediate) &&
      HasReason(env, o, h, MergeToMain)
    ensures forall i, ok :: Hear(env, o, h, i, Entry(PushMain, ok)) == WithLanding(h, ok)
    ensures WithLanding(h, h.landed) == h
  {
    hide Approved, Merging;
  }

  predicate Extends(before: seq<Entry>, after: seq<Entry>, e: Entry) {
    after == before + [e]
  }

  class Runner {
    const task: TaskId
    const env: Env
    const o: Options
    var trace: seq<Entry>

    constructor (task: TaskId, env: Env, o: Options)
      ensures this.task == task && this.env == env && this.o == o && trace == []
    {
      this.task, this.env, this.o, trace := task, env, o, [];
    }

    function Seen(): Monitor
      reads this
    {
      WatchAll(task, trace)
    }

    function Heard(): Hearing
      reads this
    {
      HearAll(env, o, trace)
    }

    method Do(call: Call) returns (ok: bool)
      modifies this
      ensures Extends(old(trace), trace, Entry(call, ok))
      ensures Seen() == Watch(old(Seen()), Entry(call, ok))
      ensures Heard() == Hear(env, o, old(Heard()), old(|trace|), Entry(call, ok))
    {
      ok := !env.fails(|trace|);
      WatchAppend(task, trace, Entry(call, ok));
      HearAppend(env, o, trace, Entry(call, ok));
      trace := trace + [Entry(call, ok)];
    }

    /** A call that has its reason and asks for nothing. */
    method Tell(call: Call) returns (ok: bool)
      requires IsQuiet(call) && HasReason(env, o, Heard(), call)
      modifies this
      ensures Seen() == Watch(old(Seen()), Entry(call, ok)) && Heard() == old(Heard())
    {
      hide Watch, Hear, HasReason, WatchAll, HearAll;
      ghost var before, i := Heard(), |trace|;
      ok := Do(call);
      HearQuietly(env, o, before, i, Entry(call, ok));
    }

    method Note(call: Call)
      modifies this
      ensures Extends(old(trace), trace, Entry(call, true))
      ensures Seen() == Watch(old(Seen()), Entry(call, true))
      ensures Heard() == Hear(env, o, old(Heard()), old(|trace|), Entry(call, true))
    {
      WatchAppend(task, trace, Entry(call, true));
      HearAppend(env, o, trace, Entry(call, true));
      trace := trace + [Entry(call, true)];
    }

    /** The four steps that leave a task blocked, the same wherever it happens. */
    method BlockTask() returns (out: Outcome)
      requires Seen().books.phase == Some(Flying) || Seen().books.phase == Some(Landed)
      requires Blocking(env, o, Heard())
      modifies this
      ensures Heard() == old(Heard())
      ensures Kept(old(Seen()), Seen())
      ensures out == Outcome(NOTHING, true) ||
        (out == Outcome(NOTHING.(blocked := 1), false) && Settled(out.summary, Seen()))
      ensures !out.err ==> CountsAsAnswered(env, o, Heard(), out.summary)
    {
      hide After, IsOn, Extends, WatchAll, HearAll, Hear, Blocking, HasReason, CountsAsAnswered;
      BlockedPhases(task);
      BlockingAllows(env, o, Heard(), task);
      var ok := Tell(Record(MarkBlocked(task, Some(map[]))));
      if !ok { return Outcome(NOTHING, true); }
      ok := Tell(SetStatus(Blocked));
      if !ok { return Outcome(NOTHING, true); }
      ok := Tell(SetData);
      if !ok { return Outcome(NOTHING, true); }
      ok := Tell(Record(ClearTerminal(task)));
      out := if ok then Outcome(NOTHING.(blocked := 1), false) else Outcome(NOTHING, true);
    }

    method FailTask() returns (out: Outcome)
      requires Seen().books.phase == Some(Flying) && Failing(env, o, Heard())
      modifies this
      ensures Heard() == old(Heard())
      ensures Kept(old(Seen()), Seen())
      ensures out == Outcome(NOTHING, true) ||
        (out == Outcome(NOTHING.(failed := 1), false) && Settled(out.summary, Seen()))
      ensures !out.err ==> CountsAsAnswered(env, o, Heard(), out.summary)
    {
      hide Extends, WatchAll, HearAll, Hear, Failing, HasReason, CountsAsAnswered;
      FailingAllows(env, o, Heard(), task);
      var ok := Tell(SetData);
      if !ok { return Outcome(NOTHING, true); }
      ok := Tell(SetStatus(Failed));
      if !ok { return Outcome(NOTHING, true); }
      ok := Tell(Record(ClearInFlight(task)));
      out := if ok then Outcome(NOTHING.(failed := 1), false) else Outcome(NOTHING, true);
    }

    /** One pass of the landing loop: commit unless done, merge, push. */
    method LandOnce(attempt: nat, committedBefore: bool) returns (progress: Progress, committed: bool)
      requires Seen().landing.holding && !Seen().landing.pushed && Approved(env, o, Heard()) && Merging(o) &&
        !Heard().landed
      modifies this
      ensures Heard() == WithLanding(old(Heard()), progress == HasLanded)
      ensures SameButLanding(old(Seen()), Seen())
      ensures Seen().landing.merges <= old(Seen().landing.merges) + 1
      ensures Seen().landing.pushes <= old(Seen().landing.pushes) + if progress == Again then 0 else 1
      ensures progress == HasLanded <==> Seen().landing.pushed
      ensures attempt >= 2 ==> progress != Again
    {
      hide StatusInOrder, RecordInOrder, After, IsOn, Extends, WithLanding, WatchAll, HearAll, Hear, HasReason,
        Approved, Merging;
      ApprovalAllows(env, o, Heard());
      committed := committedBefore;
      if !committed {
        committed := Tell(CommitAll);
        if !committed { return Blocks, committed; }
      }
      var conflict := env.conflict(|trace|);
      var merged := Tell(MergeToMain);
      if !merged {
        progress, committed := MergeFailed(attempt, conflict, committed);
        return;
      }
      var pushed := Do(PushMain);
      progress := if pushed then HasLanded else Blocks;
    }

    /** A first merge that fails is tried again, after remediation when it was a conflict;
        then all has to be committed once more. */
    method MergeFailed(attempt: nat, conflict: bool, committed0: bool) returns (progress: Progress, committed: bool)
      requires Seen().landing.holding && Approved(env, o, Heard()) && Merging(o)
      modifies this
      ensures Seen() == old(Seen()) && Heard() == old(Heard())
      ensures progress != HasLanded && (attempt >= 2 ==> progress == Blocks)
      ensures progress == Again ==> committed == (committed0 && !conflict)
    {
      hide StatusInOrder, RecordInOrder, After, IsOn, Extends, WithLanding, WatchAll, HearAll, Hear, HasReason,
        Approved, Merging;
      ApprovalAllows(env, o, Heard());
      committed := committed0;
      if attempt >= 2 {
        return Blocks, committed;
      }
      if conflict {
        var remedied := Tell(Remediate);
        if !remedied { return Blocks, committed; }
        committed := false;
      }
      progress := Again;
    }

    /** The landing loop: at most two merges and one push, and at its end the task has
        either landed or is blocked. */
    method Land() returns (blocked: bool)
      requires !Seen().landing.holding && Approved(env, o, Heard()) && Merging(o) && !Heard().landed
      modifies this
      ensures Heard() == WithLanding(old(Heard()), !blocked)
      ensures Seen().landing.holding && Seen() == old(Seen()).(landing := Seen().landing)
      ensures Seen().landing.merges <= old(Seen().landing.merges) + 2 &&
        Seen().landing.pushes <= old(Seen().landing.pushes) + 1
      ensures blocked <==> !Seen().landing.pushed
    {
      hide Extends, WatchAll, HearAll;
      Note(LockLanding);
      ghost var before := Seen();
      var autoCommitDone, attempt := false, 1;
      var progress := Progress.Again;
      while attempt <= 2
        invariant 1 <= attempt <= 2 && progress == Again
        invariant SameButLanding(before, Seen()) && !Seen().landing.pushed
        invariant Heard() == old(Heard())
        invariant Seen().landing.merges < before.landing.merges + attempt &&
          Seen().landing.pushes <= before.landing.pushes
        decreases 3 - attempt
      {
        progress, autoCommitDone := LandOnce(attempt, autoCommitDone);
        if progress != Again {
          break;
        }
        attempt := attempt + 1;
      }
      blocked := progress == Blocks;
    }

    /** A review, a second one when the first gives no verdict, and what they make of a
        completed result. */
    method ReviewResult(result: Reply) returns (err: bool, after: Reply, reviewFailed: bool)
      requires Seen().books.phase == Some(Flying) && result.status == RunCompleted && o.requireReview
      requires Heard().turn.Some? && env.reply(Heard().turn.value) == result && Heard().reviews == []
      modifies this
      ensures Seen() == old(Seen()) && Heard() == old(Heard()).(reviews := Heard().reviews)
      ensures !err ==> Answered(env, o, Heard()) && Heard().reviews != [] && TurnStatus(env, Heard()) == after.status
      ensures after.status == RunCompleted ==> after == result && !reviewFailed
      ensures reviewFailed <==> !err && after.status == RunFailed
    {
      hide Extends, WatchAll, HearAll;
      err, after, reviewFailed := false, result, false;
      var reply := env.reply(|trace|);
      var ok := Do(Review);
      if !ok { return true, result, false; }
      var final := reply;
      if final.status == RunCompleted && !final.reviewReady && final.verdict == NoVerdict {
        final := env.reply(|trace|);
        ok := Do(Review);
        if !ok { return true, result, false; }
      }
      if final.status == RunCompleted && !final.reviewReady {
        final := final.(status := RunFailed);
      }
      if final.status != RunCompleted {
        after := final;
        reviewFailed := final.status == RunFailed;
      }
    }

    /** The completed branch: quality control, the record, landing when merging is on,
        and only then the status Closed. */
    method CompleteTask() returns (out: Outcome)
      requires Seen().books.phase == Some(Flying) && !Seen().landing.holding && Seen().landing.merges == 0 &&
        Seen().landing.pushes == 0
      requires Answered(env, o, Heard()) && TurnStatus(env, Heard()) == RunCompleted && !Heard().landed &&
        Heard().gate.None?
      modifies this
      ensures Heard().lawful == old(Heard()).lawful
      ensures !out.err ==> CountsAsAnswered(env, o, Heard(), out.summary)
      ensures Seen().books.phase.Some? && Seen().implements == old(Seen().implements)
      ensures Seen().landing.merges <= 2 && Seen().landing.pushes <= 1
      ensures Merging(o) ==> Seen().clean == old(Seen().clean)
      ensures Seen().books.ordered == old(Seen()).books.ordered
      ensures !out.err ==> Settled(out.summary, Seen())
      ensures out.err ==> out.summary == NOTHING
      ensures !out.err && out.summary.completed == 1 && Merging(o) ==> Seen().landing.pushed
    {
      hide After, IsOn, Extends, WithLanding, WatchAll, HearAll, Hear, Answered, TurnStatus, Approved, Blocking, Done,
        Failing, Settled, CountsAsAnswered;
      CompletedPhase(task);
      AfterQcGate(env, o, Heard(), |trace|);
      var gate := env.gate(|trace|);
      Note(QcGate);
      if gate == GateBreaks {
        return Outcome(NOTHING, true);
      }
      if gate == GateBlocks {
        out := BlockTask();
        return;
      }
      var ok := Tell(Record(MarkCompleted(task)));
      if !ok { return Outcome(NOTHING, true); }
      AfterLanding(env, o, Heard(), false);
      if o.mergeOnSuccess && o.hasVcs {
        AfterLanding(env, o, Heard(), true);
        var blocked := Land();
        if blocked {
          out := BlockTask();
          return;
        }
      }
      out := CloseTask();
    }

    method CloseTask() returns (out: Outcome)
      requires Seen().books.phase == Some(Landed) && Done(env, o, Heard())
      modifies this
      ensures Heard() == old(Heard())
      ensures var m := old(Seen()); Kept(m.(clean := m.clean && m.landing.pushed), Seen())
      ensures out == Outcome(NOTHING, true) ||
        (out == Outcome(NOTHING.(completed := 1), false) && Settled(out.summary, Seen()))
      ensures !out.err ==> CountsAsAnswered(env, o, Heard(), out.summary)
    {
      hide Extends, WatchAll, HearAll, Hear, Done, HasReason, CountsAsAnswered;
      DoneAllows(env, o, Heard(), task);
      var ok := Tell(SetStatus(Closed));
      if !ok { return Outcome(NOTHING, true); }
      ok := Tell(Record(ClearTerminal(task)));
      out := if ok then Outcome(NOTHING.(completed := 1), false) else Outcome(NOTHING, true);
    }

    /** The retry loop: each turn runs the implementation once, and a failed turn goes on
        with the fallback model, a review retry or a completion retry, or ends. */
    method Attempts() returns (out: Outcome)
      requires Seen() == Start(task) && Heard().turn.None? &&
        Heard() == SILENCE.(gate := Heard().gate, tested := Heard().tested)
      requires MayTry(env, o, Heard())
      modifies this
      ensures Heard().lawful
      ensures !out.err ==> CountsAsAnswered(env, o, Heard(), out.summary)
      ensures Seen().books.phase.Some? && Seen().implements <= ImplementBound(o)
      ensures Seen().landing.merges <= 2 && Seen().landing.pushes <= 1 && (Merging(o) ==> Seen().clean) &&
        Seen().books.ordered
      ensures !out.err ==> Settled(out.summary, Seen())
      ensures out.err ==> out.summary == NOTHING
      ensures !out.err && out.summary.completed == 1 && Merging(o) ==> Seen().landing.pushed
    {
      hide RecordInOrder, After, IsOn, Extends, WatchAll, HearAll, Hear, Answered, TurnStatus, Approved, Blocking,
        Done, Failing, MayTry,
        BudgetLasts, TroubleOf, Spent, Settled, CountsAsAnswered, Merging;
      NothingSpent(env, o, Heard());
      if o.hasVcs {
        var ok := Tell(Branch);
        if !ok { return Outcome(NOTHING, true); }
      }
      var reviewRetries, completionRetries, usedModelFallback := o.reviewRetries, o.completionRetries, false;
      while true
        invariant Rewritten(Start(task).(implements := Seen().implements), Seen())
        invariant Heard().lawful && MayTry(env, o, Heard())
        invariant Spent(env, o, Heard(), usedModelFallback, reviewRetries, completionRetries)
        invariant Seen().implements + Budget(o, usedModelFallback, reviewRetries, completionRetries) + 1 <=
          ImplementBound(o)
        decreases Budget(o, usedModelFallback, reviewRetries, completionRetries)
      {
        var ok := Tell(SetStatus(InProgress));
        if !ok { return Outcome(NOTHING, true); }
        var result := env.reply(|trace|);
        AfterImplement(env, o, Heard(), |trace|, usedModelFallback, reviewRetries, completionRetries);
        ok := Do(Implement);
        if !ok { return Outcome(NOTHING, true); }
        var reviewFailed := false;
        if result.status == RunCompleted && o.requireReview {
          var err;
          err, result, reviewFailed := ReviewResult(result);
          if err { return Outcome(NOTHING, true); }
        }
        TurnEnds(env, o, Heard());
        match result.status {
          case RunCompleted =>
            out := CompleteTask();
            return;
          case RunBlocked =>
            out := BlockTask();
            return;
          case RunFailed =>
            var again;
            again, out, usedModelFallback, reviewRetries, completionRetries :=
              AfterFailure(result, reviewFailed, usedModelFallback, reviewRetries, completionRetries);
            if again {
              continue;
            }
            return;
          case RunOther =>
            out := FailTask();
            return;
        }
      }
    }

    /** What follows a failed turn: another one while the budget for its trouble lasts, or
        the end, blocked for a completion and failed for a review. */
    method AfterFailure(result: Reply, reviewFailed: bool, fallback0: bool, reviews0: int, completions0: int)
      returns (again: bool, out: Outcome, fallback: bool, reviews: int, completions: int)
      requires Seen().books.phase == Some(Flying) && Answered(env, o, Heard()) && TurnStatus(env, Heard()) == RunFailed
      requires (reviewFailed <==> Heard().reviews != []) && (!reviewFailed ==> result == env.reply(Heard().turn.value))
      requires Tallied(o, Heard(), fallback0, reviews0, completions0)
      modifies this
      ensures Heard() == old(Heard()) && (again <==> !out.err && BudgetLasts(env, o, Heard()))
      ensures again ==> MayTry(env, o, Heard()) && Spent(env, o, Heard(), fallback, reviews, completions)
      ensures again ==> Rewritten(old(Seen()), Seen())
      ensures again ==> Budget(o, fallback, reviews, completions) < Budget(o, fallback0, reviews0, completions0)
      ensures !again ==> Kept(old(Seen()), Seen()) && out.summary.completed == 0 && (out.err ==> out.summary == NOTHING)
      ensures !again && !out.err ==> Settled(out.summary, Seen()) && CountsAsAnswered(env, o, Heard(), out.summary)
    {
      hide Extends, WatchAll, HearAll, Hear, Answered, TurnStatus, Blocking, Failing, MayTry, Tallied, BudgetLasts,
        Spent, TroubleOf, Settled, CountsAsAnswered;
      again, out, fallback, reviews, completions := false, Outcome(NOTHING, false), fallback0, reviews0, completions0;
      FailedTurn(env, o, Heard(), result, reviewFailed, fallback, reviews, completions);
      if !reviewFailed && !fallback && result.modelFault {
        fallback, again := true, true;
        return;
      }
      var reviewFail := reviewFailed || result.verdict == FailedVerdict || result.reviewText;
      if reviewFail && reviews < o.maxRetries {
        reviews := reviews + 1;
        again := Reopen();
        out := Outcome(NOTHING, !again);
        return;
      }
      if !reviewFail {
        if completions < o.maxRetries {
          completions := completions + 1;
          again := Reopen();
          out := Outcome(NOTHING, !again);
          return;
        }
        out := BlockTask();
        return;
      }
      out := FailTask();
    }

    /** A retry keeps its count with the task and reopens it for the next turn. */
    method Reopen() returns (ok: bool)
      requires Answered(env, o, Heard()) && BudgetLasts(env, o, Heard()) && TroubleOf(env, Heard()) != ModelTrouble
      modifies this
      ensures Heard() == old(Heard())
      ensures Rewritten(old(Seen()), Seen())
    {
      hide Extends, WatchAll, HearAll, Hear, Answered, BudgetLasts, TroubleOf;
      ok := Tell(SetData);
      if !ok { return; }
      ok := Tell(SetStatus(Open));
    }

    /** The quality gate, and the tests gate where that is on; a gate that blocks ends the run. */
    method PassGates() returns (passed: bool, out: Outcome)
      requires Seen() == Start(task) && Heard() == SILENCE
      modifies this
      ensures passed ==> Seen() == Start(task) && MayTry(env, o, Heard())
      ensures passed ==> Heard() == SILENCE.(gate := Heard().gate, tested := Heard().tested)
      ensures !passed ==> Kept(Start(task), Seen()) && Heard().lawful && out.summary.completed == 0
      ensures !passed && out.err ==> out.summary == NOTHING
      ensures !passed && !out.err ==> Settled(out.summary, Seen()) && CountsAsAnswered(env, o, Heard(), out.summary)
    {
      hide Extends, WatchAll, HearAll, Hear, Answered, Approved, Blocking, Done, Failing, MayTry, BudgetLasts,
        TroubleOf, CountsAsAnswered, Settled;
      var gate := env.gate(|trace|);
      AfterQualityGate(env, o, |trace|);
      Note(QualityGate);
      if gate == GatePasses && o.tddMode {
        gate := env.gate(|trace|);
        AfterTestsGate(env, o, Heard(), |trace|);
        Note(TestsGate);
      }
      if gate == GateBreaks {
        return false, Outcome(NOTHING, true);
      }
      if gate == GateBlocks {
        out := BlockTask();
        return false, out;
      }
      return true, Outcome(NOTHING, false);
    }

    /** The whole of runTask with its gates and its deferred calls: the landing lock is
        given back first, then the clone is removed, whichever way the task ended. */
    method RunTask() returns (out: Outcome)
      requires trace == []
      modifies this
      ensures Heard().lawful
      ensures !out.err ==> CountsAsAnswered(env, o, Heard(), out.summary)
      ensures Seen().implements <= ImplementBound(o)
      ensures Seen().landing.merges <= 2 && Seen().landing.pushes <= 1
      ensures Merging(o) ==> Seen().clean
      ensures Seen().books.ordered
      ensures !Seen().landing.holding
      ensures RunsAs(task, trace, !out.err)
      ensures !out.err ==> Settled(out.summary, Seen())
      ensures TotalProcessed(out.summary) <= 1
    {
      hide StatusInOrder, RecordInOrder, After, IsOn, Extends, WatchAll, HearAll, Hear, Answered, Approved, Blocking,
        Done, Failing, MayTry, BudgetLasts,
        TroubleOf, CountsAsAnswered, ImplementBound, Merging;
      WatchNothing(task);
      HearNothing(env, o);
      var ok := Tell(Prepare);
      if !ok { return Outcome(NOTHING, true); }
      var passed;
      passed, out := PassGates();
      if !passed {
        return;
      }
      if o.hasClone {
        ok := Tell(Clone);
        if !ok { return Outcome(NOTHING, true); }
      }
      out := Attempts();
      out := TidyUp(out);
    }

    /** The deferred calls: the landing lock is given back if it is held, and the clone removed. */
    method TidyUp(out0: Outcome) returns (out: Outcome)
      modifies this
      ensures Seen() == old(Seen()).(landing := Seen().landing) && Heard() == old(Heard())
      ensures !Seen().landing.holding && Seen().landing.merges == old(Seen().landing.merges)
      ensures Seen().landing.pushes == old(Seen().landing.pushes)
      ensures out.summary == out0.summary && (out0.err ==> out.err)
    {
      hide StatusInOrder, RecordInOrder, After, IsOn, Extends, WatchAll, HearAll, Hear, Answered, Approved, Blocking,
        Done, Failing, MayTry, BudgetLasts,
        TroubleOf, CountsAsAnswered, ImplementBound, Merging;
      out := out0;
      if Holding() {
        HearQuietly(env, o, Heard(), |trace|, Entry(UnlockLanding, true));
        Note(UnlockLanding);
      }
      if o.hasClone {
        var ok := Tell(Cleanup);
        if !ok && !out.err {
          out := out.(err := true);
        }
      }
    }

    function Holding(): bool
      reads this
    {
      Seen().landing.holding
    }
  }

  /** The runs still to be had: one on the fallback model and the retries left. */
  function Budget(o: Options, usedModelFallback: bool, reviewRetries: int, completionRetries: int): nat {
    (if usedModelFallback then 0 else 1) + Positive(o.maxRetries - reviewRetries) +
    Positive(o.maxRetries - completionRetries)
  }

  /** An error-free end: one task counted, its status written, the record cleared. */
  predicate Settled(s: Summary, m: Monitor) {
    TotalProcessed(s) == 1 && m.books.phase == Some(Idle) &&
    m.books.status == Some(if s.completed == 1 then Closed else if s.blocked == 1 then Blocked else Failed)
  }

  /** How a pass of the landing loop leaves it. */
  datatype Progress = HasLanded | Blocks | Again

  predicate SameButLanding(m: Monitor, m': Monitor) {
    m' == m.(landing := m'.landing) && m'.landing.holding == m.landing.holding
  }

  /** A step outside the runner and landing leaves all but the books alone, and keeps them in order. */
  predicate Kept(m: Monitor, m': Monitor) {
    m' == m.(books := m'.books) && m'.books.phase.Some? && m'.books.ordered == m.books.ordered
  }

  /** Only the status and the note are written anew. */
  predicate Rewritten(m: Monitor, m': Monitor) {
    m' == m.(books := m.books.(status := m'.books.status, noted := m'.books.noted))
  }
}
