/** What the hearing of a trace means for the calls themselves: a task run does to its task
    what the runner, the reviews and the gates answered, and retries it while the budget
    for its trouble lasts (internal/agent/loop.go, runTask). */
module TaskAnswers {
  import opened Contracts
  import opened TaskRun
  import opened Wrappers

  /** The implementation at j is the last one before the call at n. */
  ghost predicate IsTurn(trace: seq<Entry>, j: nat, n: nat) {
    j < n <= |trace| && trace[j].call == Implement && forall k :: j < k < n ==> trace[k].call != Implement
  }

  /** The review at k is the last one of the turn. */
  ghost predicate LastReview(trace: seq<Entry>, j: nat, k: nat, n: nat) {
    j < k < n <= |trace| && trace[k].call == Review && forall m :: k < m < n ==> trace[m].call != Review
  }

  ghost predicate PassedAt(env: Env, o: Options, trace: seq<Entry>, j: nat, g: nat, n: nat) {
    j < g < n <= |trace| && trace[g].call == QcGate && env.gate(g) == GatePasses &&
    (o.requireReview ==> exists k: nat ::
      LastReview(trace, j, k, n) && k < g && env.reply(k).status == RunCompleted && env.reply(k).reviewReady)
  }

  predicate Pushed(trace: seq<Entry>, g: nat, p: nat) {
    g < p < |trace| && trace[p] == Entry(PushMain, true)
  }

  /** Where the hearing of a lawful trace has its parts. */
  ghost predicate HeardFrom(env: Env, o: Options, trace: seq<Entry>, h: Hearing) {
    (h.turn.None? ==> FirstGates(o, trace, h)) &&
    (h.turn.Some? ==>
      IsTurn(trace, h.turn.value, |trace|) && ReviewsFrom(env, o, trace, h) && GateFrom(env, o, trace, h))
  }

  ghost predicate FirstGates(o: Options, trace: seq<Entry>, h: Hearing) {
    h.reviews == [] && !h.landed && (forall k :: 0 <= k < |trace| ==> trace[k].call != Implement) &&
    (h.tested ==> o.tddMode && h.gate.Some?) &&
    (h.gate.Some? ==> h.gate.value < |trace| && trace[h.gate.value].call == if h.tested then TestsGate else QualityGate)
  }

  ghost predicate ReviewsFrom(env: Env, o: Options, trace: seq<Entry>, h: Hearing)
    requires h.turn.Some?
  {
    (h.reviews == [] ==> forall k :: h.turn.value < k < |trace| ==> trace[k].call != Review) &&
    (h.reviews != [] ==>
      LastReview(trace, h.turn.value, LastOf(h.reviews), |trace|) && o.requireReview &&
      env.reply(h.turn.value).status == RunCompleted)
  }

  ghost predicate GateFrom(env: Env, o: Options, trace: seq<Entry>, h: Hearing)
    requires h.turn.Some?
  {
    (h.gate.Some? ==>
      h.turn.value < h.gate.value < |trace| && trace[h.gate.value].call == QcGate && Answered(env, o, h) &&
      TurnStatus(env, h) == RunCompleted && (h.reviews != [] ==> LastOf(h.reviews) < h.gate.value)) &&
    (h.landed ==> h.gate.Some? && exists p: nat :: Pushed(trace, h.gate.value, p))
  }

  lemma TurnGoesOn(trace: seq<Entry>, e: Entry, j: nat)
    requires IsTurn(trace, j, |trace|)
    ensures e.call != Implement ==> IsTurn(trace + [e], j, |trace| + 1)
  {
  }

  lemma ReviewsGoOn(env: Env, o: Options, trace: seq<Entry>, e: Entry, h: Hearing)
    requires h.turn.Some? && ReviewsFrom(env, o, trace, h) && IsTurn(trace, h.turn.value, |trace|) &&
      HasReason(env, o, h, e.call)
    ensures e.call == Review ==> ReviewsFrom(env, o, trace + [e], h.(reviews := h.reviews + [|trace|]))
    ensures e.call != Review ==> ReviewsFrom(env, o, trace + [e], h)
  {
  }

  lemma GateGoesOn(env: Env, o: Options, trace: seq<Entry>, e: Entry, h: Hearing)
    requires h.turn.Some? && GateFrom(env, o, trace, h) && ReviewsFrom(env, o, trace, h)
    requires h.lawful && HasReason(env, o, h, e.call) && e.call != Implement && IsTurn(trace, h.turn.value, |trace|)
    ensures GateFrom(env, o, trace + [e], Hear(env, o, h, |trace|, e))
  {
    hide BudgetLasts, TroubleOf, Merging, Blocking, Failing;
    if e.call == Review {
      NoReviewAfterGate(env, o, trace, h);
    } else if e.call == QcGate {
      GateComes(env, o, trace, e, h);
    } else {
      GateStays(env, o, trace, e, h);
    }
  }

  lemma GateComes(env: Env, o: Options, trace: seq<Entry>, e: Entry, h: Hearing)
    requires h.turn.Some? && GateFrom(env, o, trace, h) && ReviewsFrom(env, o, trace, h)
    requires h.lawful && e.call == QcGate && HasReason(env, o, h, QcGate) && IsTurn(trace, h.turn.value, |trace|)
    ensures GateFrom(env, o, trace + [e], Hear(env, o, h, |trace|, e))
  {
    SameAnswer(env, o, h, Hear(env, o, h, |trace|, e));
  }

  lemma NoReviewAfterGate(env: Env, o: Options, trace: seq<Entry>, h: Hearing)
    requires h.turn.Some? && GateFrom(env, o, trace, h) && HasReason(env, o, h, Review)
    ensures h.gate.None? && !h.landed
  {
  }

  lemma GateStays(env: Env, o: Options, trace: seq<Entry>, e: Entry, h: Hearing)
    requires h.turn.Some? && GateFrom(env, o, trace, h) && h.lawful && HasReason(env, o, h, e.call)
    requires !e.call.Implement? && !e.call.Review? && !e.call.QcGate?
    ensures GateFrom(env, o, trace + [e], Hear(env, o, h, |trace|, e))
  {
    hide BudgetLasts, TroubleOf, Merging, Blocking, Failing;
    var after := trace + [e];
    assert e.call != QualityGate && e.call != TestsGate;
    assert e.call == PushMain ==> h.gate.Some?;
    if e.call == PushMain {
      assert e.ok ==> Pushed(after, h.gate.value, |trace|);
    } else if h.landed {
      var p: nat :| Pushed(trace, h.gate.value, p);
      assert Pushed(after, h.gate.value, p);
    }
    SameAnswer(env, o, h, Hear(env, o, h, |trace|, e));
  }

  lemma SameAnswer(env: Env, o: Options, h: Hearing, after: Hearing)
    requires after.turn == h.turn && after.reviews == h.reviews
    ensures Answered(env, o, after) == Answered(env, o, h) &&
      (h.turn.Some? ==> TurnStatus(env, after) == TurnStatus(env, h))
  {
  }

  lemma {:induction false} HeardIs(env: Env, o: Options, trace: seq<Entry>)
    requires HearAll(env, o, trace).lawful
    ensures HeardFrom(env, o, trace, HearAll(env, o, trace))
    decreases |trace|
  {
    hide Hear, HasReason, HeardFrom;
    if trace == [] {
      SilenceHeard(env, o);
    } else {
      var n := |trace| - 1;
      LawfulBefore(env, o, HearAll(env, o, trace[..n]), n, trace[n]);
      HeardIs(env, o, trace[..n]);
      HeardOne(env, o, trace[..n], trace[n], HearAll(env, o, trace[..n]));
      assert trace[..n] + [trace[n]] == trace;
    }
  }

  lemma LawfulBefore(env: Env, o: Options, h: Hearing, i: nat, e: Entry)
    ensures Hear(env, o, h, i, e).lawful <==> h.lawful && HasReason(env, o, h, e.call)
  {
    hide HasReason, TroubleOf;
  }

  lemma SilenceHeard(env: Env, o: Options)
    ensures HeardFrom(env, o, [], SILENCE)
  {
  }

  lemma HeardOne(env: Env, o: Options, trace: seq<Entry>, e: Entry, h: Hearing)
    requires HeardFrom(env, o, trace, h) && h.lawful && HasReason(env, o, h, e.call)
    ensures HeardFrom(env, o, trace + [e], Hear(env, o, h, |trace|, e))
  {
    hide BudgetLasts, TroubleOf, Merging, Blocking, Failing, GateFrom, ReviewsFrom;
    var after := Hear(env, o, h, |trace|, e);
    if e.call == Implement {
      NewTurn(env, o, trace, e, h);
    } else if h.turn.None? {
      GatesGoOn(env, o, trace, e, h);
    } else {
      TurnGoesOn(trace, e, h.turn.value);
      ReviewsGoOn(env, o, trace, e, h);
      GateGoesOn(env, o, trace, e, h);
      if e.call != Review {
        SameReviews(env, o, trace + [e], h, after);
      }
    }
  }

  lemma GatesGoOn(env: Env, o: Options, trace: seq<Entry>, e: Entry, h: Hearing)
    requires h.turn.None? && FirstGates(o, trace, h) && HasReason(env, o, h, e.call) && e.call != Implement
    ensures FirstGates(o, trace + [e], Hear(env, o, h, |trace|, e)) && Hear(env, o, h, |trace|, e).turn.None?
  {
    hide BudgetLasts, TroubleOf, Merging, Blocking, Failing;
  }

  lemma NewTurn(env: Env, o: Options, trace: seq<Entry>, e: Entry, h: Hearing)
    requires e.call == Implement
    ensures HeardFrom(env, o, trace + [e], Hear(env, o, h, |trace|, e))
  {
    hide TroubleOf;
  }

  lemma SameReviews(env: Env, o: Options, trace: seq<Entry>, h: Hearing, after: Hearing)
    requires h.turn.Some? && after.turn == h.turn && after.reviews == h.reviews && ReviewsFrom(env, o, trace, h)
    ensures ReviewsFrom(env, o, trace, after)
  {
  }

  // ---- nothing lands unapproved ----

  predicate IsLanding(call: Call) {
    call.LockLanding? || call.CommitAll? || call.Remediate? || call.MergeToMain? || call.PushMain? ||
    call == SetStatus(Closed) || (call.Record? && call.op.MarkCompleted?)
  }

  lemma ApprovedGoesOn(env: Env, o: Options, trace: seq<Entry>, h: Hearing, e: Entry)
    requires HeardFrom(env, o, trace, h) && Approved(env, o, h) && HasReason(env, o, h, e.call)
    ensures var after := Hear(env, o, h, |trace|, e);
      Approved(env, o, after) && after.turn == h.turn && after.gate == h.gate
  {
    hide Merging, Blocking, Failing, ReviewsFrom, IsTurn;
    if e.call == Review {
      NoReviewAfterGate(env, o, trace, h);
      assert false;
    }
  }

  /** Calls that land or close a task come after an approval, and then the task stays approved. */
  lemma {:induction false} LandsOnlyApproved(env: Env, o: Options, trace: seq<Entry>, i: nat)
    requires HearAll(env, o, trace).lawful && i < |trace| && IsLanding(trace[i].call)
    ensures var h, now := HearAll(env, o, trace[..i]), HearAll(env, o, trace);
      h.lawful && Approved(env, o, h) && Approved(env, o, now) && now.turn == h.turn && now.gate == h.gate
    decreases |trace|
  {
    hide Hear, HasReason, HeardFrom, Approved;
    var n := |trace| - 1;
    var before := HearAll(env, o, trace[..n]);
    LawfulBefore(env, o, before, n, trace[n]);
    HeardIs(env, o, trace[..n]);
    if i == n {
      LandingNeedsApproval(env, o, before, trace[n].call);
    } else {
      LandsOnlyApproved(env, o, trace[..n], i);
      assert trace[..n][..i] == trace[..i];
    }
    ApprovedGoesOn(env, o, trace[..n], before, trace[n]);
  }

  lemma LandingNeedsApproval(env: Env, o: Options, h: Hearing, call: Call)
    requires HasReason(env, o, h, call) && IsLanding(call)
    ensures Approved(env, o, h)
  {
    hide Approved;
  }

  ghost predicate ApprovedAt(env: Env, o: Options, trace: seq<Entry>, j: nat, g: nat, n: nat) {
    IsTurn(trace, j, n) && env.reply(j).status == RunCompleted && PassedAt(env, o, trace, j, g, n)
  }

  lemma ApprovalMeans(env: Env, o: Options, trace: seq<Entry>, h: Hearing)
    requires HeardFrom(env, o, trace, h) && Approved(env, o, h)
    ensures h.turn.Some? && h.gate.Some? && ApprovedAt(env, o, trace, h.turn.value, h.gate.value, |trace|)
  {
    if o.requireReview {
      var j, k := h.turn.value, LastOf(h.reviews);
      assert LastReview(trace, j, k, |trace|);
      assert env.reply(k).status == RunCompleted && env.reply(k).reviewReady;
    }
  }

  lemma AtPrefix(env: Env, o: Options, trace: seq<Entry>, j: nat, g: nat, i: nat)
    requires i <= |trace| && ApprovedAt(env, o, trace[..i], j, g, i)
    ensures ApprovedAt(env, o, trace, j, g, i)
  {
    if o.requireReview {
      var k: nat :|
        LastReview(trace[..i], j, k, i) && k < g && env.reply(k).status == RunCompleted && env.reply(k).reviewReady;
      assert LastReview(trace, j, k, i);
    }
  }

  /** A task is recorded as completed, landed or closed only after its last implementation
      completed, the last review of that turn, where one is asked for, completed ready, and
      the gate after both passed; and no other turn follows. */
  lemma NothingLandsUnapproved(env: Env, o: Options, trace: seq<Entry>, i: nat)
    requires HearAll(env, o, trace).lawful && i < |trace| && IsLanding(trace[i].call)
    ensures exists j: nat, g: nat :: ApprovedAt(env, o, trace, j, g, i) && IsTurn(trace, j, |trace|)
  {
    hide HearAll, HeardFrom, Approved, ApprovedAt;
    LandsOnlyApproved(env, o, trace, i);
    HeardIs(env, o, trace[..i]);
    var h := HearAll(env, o, trace[..i]);
    ApprovalMeans(env, o, trace[..i], h);
    AtPrefix(env, o, trace, h.turn.value, h.gate.value, i);
    HeardIs(env, o, trace);
    TurnOf(env, o, trace);
  }

  lemma TurnOf(env: Env, o: Options, trace: seq<Entry>)
    requires HeardFrom(env, o, trace, HearAll(env, o, trace))
    ensures var h := HearAll(env, o, trace); h.turn.Some? ==> IsTurn(trace, h.turn.value, |trace|)
    ensures forall j: nat :: IsTurn(trace, j, |trace|) ==> HearAll(env, o, trace).turn == Some(j)
  {
    hide HearAll, ReviewsFrom, GateFrom;
  }

  // ---- how a run ends ----

  /** What RunTask says of a run that ends without an error. */
  predicate EndsWell(env: Env, o: Options, trace: seq<Entry>, s: Summary) {
    var h := HearAll(env, o, trace);
    h.lawful && CountsAsAnswered(env, o, h, s) && TotalProcessed(s) == 1
  }

  lemma CompletedOnlyApproved(env: Env, o: Options, trace: seq<Entry>, s: Summary)
    requires EndsWell(env, o, trace, s) && s.completed == 1
    ensures exists j: nat, g: nat ::
      ApprovedAt(env, o, trace, j, g, |trace|) && (Merging(o) ==> exists p: nat :: Pushed(trace, g, p))
  {
    hide HearAll, ApprovedAt, Approved, Merging;
    var h := HearAll(env, o, trace);
    HeardIs(env, o, trace);
    ApprovalMeans(env, o, trace, h);
    assert ApprovedAt(env, o, trace, h.turn.value, h.gate.value, |trace|);
  }

  /** The ends exclude one another, so each is counted exactly when its cause holds. */
  lemma EndIs(env: Env, o: Options, trace: seq<Entry>, s: Summary)
    requires EndsWell(env, o, trace, s)
    ensures var h := HearAll(env, o, trace);
      (s.completed == 1 <==> Done(env, o, h)) && (s.blocked == 1 <==> Blocking(env, o, h)) &&
      (s.failed == 1 <==> Failing(env, o, h)) && !BudgetLasts(env, o, h)
  {
    hide HearAll, Merging, ReviewsFrom;
    HeardIs(env, o, trace);
    OneEnd(env, o, trace, HearAll(env, o, trace));
  }

  lemma OneEnd(env: Env, o: Options, trace: seq<Entry>, h: Hearing)
    requires HeardFrom(env, o, trace, h)
    ensures !(Done(env, o, h) && Blocking(env, o, h)) && !(Done(env, o, h) && Failing(env, o, h)) &&
      !(Blocking(env, o, h) && Failing(env, o, h))
    ensures BudgetLasts(env, o, h) ==> !Done(env, o, h) && !Blocking(env, o, h) && !Failing(env, o, h)
  {
    hide ReviewsFrom, IsTurn;
  }

  ghost predicate NothingLanded(trace: seq<Entry>) {
    forall i :: 0 <= i < |trace| ==> !IsLanding(trace[i].call)
  }

  lemma UnapprovedLandsNothing(env: Env, o: Options, trace: seq<Entry>)
    requires HearAll(env, o, trace).lawful && !Approved(env, o, HearAll(env, o, trace))
    ensures NothingLanded(trace)
  {
    hide HearAll, Approved, IsLanding;
    forall i | 0 <= i < |trace|
      ensures !IsLanding(trace[i].call)
    {
      if IsLanding(trace[i].call) {
        LandsOnlyApproved(env, o, trace, i);
        assert false;
      }
    }
  }

  /** The last answer of the runner decides.  Blocked, or any status but the four, is final.
      A failure that is not tried again is counted as failed when it is one of a review, and
      blocked otherwise. */
  lemma LastAnswerDecides(env: Env, o: Options, trace: seq<Entry>, s: Summary, j: nat)
    requires EndsWell(env, o, trace, s) && IsTurn(trace, j, |trace|) && env.reply(j).status != RunCompleted
    ensures NothingLanded(trace) && s.completed == 0
    ensures env.reply(j).status == RunBlocked ==> s.blocked == 1
    ensures env.reply(j).status == RunOther ==> s.failed == 1
    ensures env.reply(j).status == RunFailed ==> 
      (s.failed == 1 <==> env.reply(j).verdict == FailedVerdict || env.reply(j).reviewText)
  {
    hide HearAll, IsTurn, Merging, NothingLanded;
    HeardIs(env, o, trace);
    TurnOf(env, o, trace);
    EndIs(env, o, trace, s);
    UnapprovedLandsNothing(env, o, trace);
  }

  /** The same for the last review of a completed implementation. */
  lemma LastReviewDecides(env: Env, o: Options, trace: seq<Entry>, s: Summary, j: nat)
    requires EndsWell(env, o, trace, s) && IsTurn(trace, j, |trace|) && env.reply(j).status == RunCompleted &&
      o.requireReview
    ensures exists k: nat :: LastReview(trace, j, k, |trace|) && ReviewDecides(env.reply(k), s, trace)
  {
    hide HearAll, IsTurn, Merging, NothingLanded, LastReview;
    HeardIs(env, o, trace);
    TurnOf(env, o, trace);
    EndIs(env, o, trace, s);
    var h := HearAll(env, o, trace);
    EndAnswered(env, o, trace, h, s);
    var k := LastOf(h.reviews);
    if !Approved(env, o, h) {
      UnapprovedLandsNothing(env, o, trace);
    }
    assert LastReview(trace, j, k, |trace|) && ReviewDecides(env.reply(k), s, trace);
  }

  ghost predicate ReviewDecides(r: Reply, s: Summary, trace: seq<Entry>) {
    (r.status == RunBlocked ==> s.blocked == 1) && (r.status == RunOther ==> s.failed == 1) &&
    (r.status == RunFailed ==> s.failed == 1) && (r.status == RunCompleted && !r.reviewReady ==> s.failed == 1) &&
    (r.status == RunCompleted && r.reviewReady ==> s.failed == 0) &&
    (r.status != RunCompleted || !r.reviewReady ==> NothingLanded(trace))
  }

  lemma EndAnswered(env: Env, o: Options, trace: seq<Entry>, h: Hearing, s: Summary)
    requires HeardFrom(env, o, trace, h) && h.turn.Some? && CountsAsAnswered(env, o, h, s) && TotalProcessed(s) == 1
    ensures Answered(env, o, h)
  {
    hide ReviewsFrom, IsTurn;
  }

  /** The first implementation follows a gate that passed, the tests gate where that is on. */
  lemma FirstAfterGates(env: Env, o: Options, trace: seq<Entry>, i: nat)
    requires HearAll(env, o, trace).lawful && i < |trace| && trace[i].call == Implement
    requires forall k :: 0 <= k < i ==> trace[k].call != Implement
    ensures exists g: nat ::
      g < i && trace[g].call == (if o.tddMode then TestsGate else QualityGate) && env.gate(g) == GatePasses
  {
    hide HearAll;
    LawfulPrefix(env, o, trace, i);
    HeardIs(env, o, trace[..i]);
    TurnOf(env, o, trace[..i]);
  }

  /** A run that ends without an error and without an implementation was blocked by a gate. */
  lemma NoTurnMeansBlocked(env: Env, o: Options, trace: seq<Entry>, s: Summary)
    requires EndsWell(env, o, trace, s) && forall k :: 0 <= k < |trace| ==> trace[k].call != Implement
    ensures s.blocked == 1 && NothingLanded(trace)
    ensures exists g: nat :: g < |trace| && trace[g].call in {QualityGate, TestsGate} && env.gate(g) == GateBlocks
  {
    hide HearAll, NothingLanded;
    HeardIs(env, o, trace);
    TurnOf(env, o, trace);
    EndIs(env, o, trace, s);
    UnapprovedLandsNothing(env, o, trace);
  }

  // ---- when a task is tried again ----

  lemma {:induction false} LawfulPrefix(env: Env, o: Options, trace: seq<Entry>, n: nat)
    requires HearAll(env, o, trace).lawful && n <= |trace|
    ensures HearAll(env, o, trace[..n]).lawful
    ensures n < |trace| ==> HasReason(env, o, HearAll(env, o, trace[..n]), trace[n].call)
    decreases |trace|
  {
    hide Hear, HasReason;
    if n == |trace| {
      assert trace[..n] == trace;
    } else {
      var last := |trace| - 1;
      LawfulBefore(env, o, HearAll(env, o, trace[..last]), last, trace[last]);
      if n < last {
        LawfulPrefix(env, o, trace[..last], n);
        assert trace[..last][..n] == trace[..n];
      }
    }
  }

  /** The turn from j ends at n. */
  ghost predicate EndsAt(trace: seq<Entry>, j: nat, n: nat) {
    IsTurn(trace, j, n) && (n == |trace| || trace[n].call == Implement)
  }

  /** In a run without an error a turn is followed by another one exactly when it failed and
      the budget for its trouble lasted. */
  lemma RetriedIff(env: Env, o: Options, trace: seq<Entry>, s: Summary, j: nat, n: nat)
    requires EndsWell(env, o, trace, s) && EndsAt(trace, j, n)
    ensures n < |trace| <==> BudgetLasts(env, o, HearAll(env, o, trace[..n]))
  {
    hide HearAll, BudgetLasts;
    LawfulPrefix(env, o, trace, n);
    if n == |trace| {
      assert trace[..n] == trace;
      EndIs(env, o, trace, s);
    } else {
      HeardIs(env, o, trace[..n]);
      assert IsTurn(trace[..n], j, n);
      TurnOf(env, o, trace[..n]);
    }
  }

  /** The turns before the last one that ended in that trouble, by where the next one begins. */
  ghost function TroubledTurns(env: Env, o: Options, trace: seq<Entry>, t: Trouble): set<nat> {
    set n: nat | n < |trace| && trace[n].call == Implement && TroubleOf(env, HearAll(env, o, trace[..n])) == t
  }

  /** What the budgets are compared with is the number of those turns. */
  lemma {:induction false} TroublesCounted(env: Env, o: Options, trace: seq<Entry>)
    ensures var h := HearAll(env, o, trace);
      h.modelTroubles == |TroubledTurns(env, o, trace, ModelTrouble)| &&
      h.reviewTroubles == |TroubledTurns(env, o, trace, ReviewTrouble)| &&
      h.completionTroubles == |TroubledTurns(env, o, trace, CompletionTrouble)|
    decreases |trace|
  {
    hide TroubledTurns, HearAll;
    if trace == [] {
      NoTroubles(env, o);
    } else {
      var n := |trace| - 1;
      TroublesCounted(env, o, trace[..n]);
      forall t: Trouble
        ensures |TroubledTurns(env, o, trace, t)| == |TroubledTurns(env, o, trace[..n], t)| +
          if trace[n].call == Implement && TroubleOf(env, HearAll(env, o, trace[..n])) == t then 1 else 0
      {
        OneMoreTurn(env, o, trace, t);
      }
      CountedHeard(env, o, trace);
    }
  }

  lemma NoTroubles(env: Env, o: Options)
    ensures HearAll(env, o, []) == SILENCE && forall t: Trouble :: TroubledTurns(env, o, [], t) == {}
  {
  }

  lemma CountedHeard(env: Env, o: Options, trace: seq<Entry>)
    requires trace != []
    ensures var n := |trace| - 1;
      var before, h := HearAll(env, o, trace[..n]), HearAll(env, o, trace);
      var t := if trace[n].call == Implement then TroubleOf(env, before) else NoTrouble;
      h.modelTroubles == before.modelTroubles + (if t == ModelTrouble then 1 else 0) &&
      h.reviewTroubles == before.reviewTroubles + (if t == ReviewTrouble then 1 else 0) &&
      h.completionTroubles == before.completionTroubles + (if t == CompletionTrouble then 1 else 0)
  {
    hide HasReason, TroubleOf;
    var n := |trace| - 1;
    SameTrouble(env, HearAll(env, o, trace[..n]), HasReason(env, o, HearAll(env, o, trace[..n]), trace[n].call));
  }

  lemma SameTrouble(env: Env, h: Hearing, lawful: bool)
    ensures TroubleOf(env, h.(lawful := lawful && h.lawful)) == TroubleOf(env, h)
    ensures TroubleOf(env, h.(lawful := h.lawful && lawful)) == TroubleOf(env, h)
  {
  }

  lemma OneMoreTurn(env: Env, o: Options, trace: seq<Entry>, t: Trouble)
    requires trace != []
    ensures var n := |trace| - 1;
      |TroubledTurns(env, o, trace, t)| == |TroubledTurns(env, o, trace[..n], t)| +
        if trace[n].call == Implement && TroubleOf(env, HearAll(env, o, trace[..n])) == t then 1 else 0
  {
    hide HearAll, TroubleOf;
    var n := |trace| - 1;
    var before, after := TroubledTurns(env, o, trace[..n], t), TroubledTurns(env, o, trace, t);
    forall m: nat | m < n
      ensures m in before <==> m in after
    {
      assert trace[..n][..m] == trace[..m];
    }
    if trace[n].call == Implement && TroubleOf(env, HearAll(env, o, trace[..n])) == t {
      assert after == before + {n};
    } else {
      assert after == before;
    }
  }

  /** The turn failed: its last review did not pass, or without one the implementation failed. */
  ghost predicate TurnFailed(env: Env, trace: seq<Entry>, j: nat, n: nat) {
    if Reviewed(trace, j, n) then
      exists k: nat :: LastReview(trace, j, k, n) &&
        (env.reply(k).status == RunFailed || (env.reply(k).status == RunCompleted && !env.reply(k).reviewReady))
    else env.reply(j).status == RunFailed
  }

  ghost predicate Reviewed(trace: seq<Entry>, j: nat, n: nat) {
    n <= |trace| && exists k: nat :: LastReview(trace, j, k, n)
  }

  /** The turn's failure is one of the model, and the first one. */
  ghost predicate ModelFails(env: Env, o: Options, trace: seq<Entry>, j: nat, n: nat)
    requires n <= |trace|
  {
    !Reviewed(trace, j, n) && env.reply(j).modelFault && TroubledTurns(env, o, trace[..n], ModelTrouble) == {}
  }

  ghost predicate ReviewFails(env: Env, trace: seq<Entry>, j: nat, n: nat) {
    Reviewed(trace, j, n) || env.reply(j).verdict == FailedVerdict || env.reply(j).reviewText
  }

  /** What the troubles are, told by the answers. */
  lemma TroubleIs(env: Env, o: Options, trace: seq<Entry>, j: nat, n: nat)
    requires HearAll(env, o, trace).lawful && IsTurn(trace, j, n)
    ensures var t := TroubleOf(env, HearAll(env, o, trace[..n]));
      (t != NoTrouble <==> TurnFailed(env, trace, j, n)) &&
      (t == ModelTrouble <==> TurnFailed(env, trace, j, n) && ModelFails(env, o, trace, j, n)) &&
      (t == ReviewTrouble <==>
        TurnFailed(env, trace, j, n) && !ModelFails(env, o, trace, j, n) && ReviewFails(env, trace, j, n))
  {
    hide HearAll, TroubledTurns, LastReview;
    LawfulPrefix(env, o, trace, n);
    HeardIs(env, o, trace[..n]);
    PrefixTurn(trace, j, n);
    TurnOf(env, o, trace[..n]);
    var h := HearAll(env, o, trace[..n]);
    ReviewsHeard(env, o, trace, h, n);
    TroublesCounted(env, o, trace[..n]);
    assert TroubledTurns(env, o, trace[..n], ModelTrouble) == {} <==> h.modelTroubles == 0;
    if h.reviews != [] {
      OneLastReview(trace, j, LastOf(h.reviews), n);
    }
  }

  lemma PrefixTurn(trace: seq<Entry>, j: nat, n: nat)
    requires IsTurn(trace, j, n)
    ensures IsTurn(trace[..n], j, |trace[..n]|)
  {
  }

  lemma OneLastReview(trace: seq<Entry>, j: nat, k: nat, n: nat)
    requires LastReview(trace, j, k, n)
    ensures forall m: nat :: LastReview(trace, j, m, n) ==> m == k
  {
  }

  lemma ReviewsHeard(env: Env, o: Options, trace: seq<Entry>, h: Hearing, n: nat)
    requires n <= |trace| && h.turn.Some? && ReviewsFrom(env, o, trace[..n], h)
    ensures h.reviews == [] <==> !Reviewed(trace, h.turn.value, n)
    ensures h.reviews != [] ==> LastReview(trace, h.turn.value, LastOf(h.reviews), n)
  {
    if h.reviews == [] {
      forall k: nat
        ensures !LastReview(trace, h.turn.value, k, n)
      {
        assert h.turn.value < k < n ==> trace[..n][k] == trace[k];
      }
    } else {
      assert LastReview(trace[..n], h.turn.value, LastOf(h.reviews), n);
      assert LastReview(trace, h.turn.value, LastOf(h.reviews), n);
    }
  }

  ghost predicate FewTroubles(env: Env, o: Options, trace: seq<Entry>, j: nat, n: nat)
    requires n <= |trace|
  {
    if ModelFails(env, o, trace, j, n) then true
    else if ReviewFails(env, trace, j, n) then
      o.reviewRetries + |TroubledTurns(env, o, trace[..n], ReviewTrouble)| < o.maxRetries
    else o.completionRetries + |TroubledTurns(env, o, trace[..n], CompletionTrouble)| < o.maxRetries
  }

  /** Exactly when a task is tried again, in a run without an error: after a turn that failed,
      when its trouble is the model's for the first time, or while fewer turns than the
      budget allows ended in the same trouble. */
  lemma RetriedWithinBudget(env: Env, o: Options, trace: seq<Entry>, s: Summary, j: nat, n: nat)
    requires EndsWell(env, o, trace, s) && EndsAt(trace, j, n)
    ensures n < |trace| <==> TurnFailed(env, trace, j, n) && FewTroubles(env, o, trace, j, n)
  {
    hide HearAll, TroubleOf, TurnFailed, ModelFails, ReviewFails, TroubledTurns, EndsWell;
    RetriedIff(env, o, trace, s, j, n);
    WellIsLawful(env, o, trace, s);
    TroubleIs(env, o, trace, j, n);
    TroublesCounted(env, o, trace[..n]);
  }

  lemma WellIsLawful(env: Env, o: Options, trace: seq<Entry>, s: Summary)
    requires EndsWell(env, o, trace, s)
    ensures HearAll(env, o, trace).lawful
  {
  }
}
