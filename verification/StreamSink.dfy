/** The event stream (internal/contracts/stream_sink.go): runner output that comes too fast
    is held back, and one line stands for all that was held. */
module StreamSink {
  import opened Wrappers

  datatype Event = Event(output: bool, at: int, text: string)

  /** coalesced and dropped are the counts put into the line's metadata, 0 when left out. */
  datatype Line = Line(event: Event, coalesced: nat, dropped: nat)

  datatype Settings = Settings(verbose: bool, interval: int, maxPending: nat)

  datatype Sink = Sink(last: Option<int>, pending: Option<Event>, pendingCount: nat, droppedCount: nat,
                       lines: seq<Line>)

  const EMPTY_SINK := Sink(None, None, 0, 0, [])

  /** Non-positive options are replaced by 150 (ms) and 64. */
  function Adjusted(verbose: bool, interval: int, maxPending: int): (r: Settings)
    ensures r.interval > 0 && r.maxPending > 0
  {
    Settings(verbose, if interval <= 0 then 150 else interval, if maxPending <= 0 then 64 else maxPending)
  }

  /** An event and whether the stream takes the lines it causes. */
  datatype Emission = Emission(event: Event, flushTaken: bool, lineTaken: bool)

  function Held(s: Sink): Line
    requires s.pending.Some?
  {
    Line(s.pending.value, if s.pendingCount > 1 then s.pendingCount - 1 else 0, s.droppedCount)
  }

  /** The held output is forgotten even when the stream does not take it. */
  function Flushed(s: Sink, taken: bool): Sink {
    if s.pending.None? then s else
      Sink(Some(s.pending.value.at), None, 0, 0, if taken then s.lines + [Held(s)] else s.lines)
  }

  predicate FlushFails(s: Sink, taken: bool) {
    s.pending.Some? && !taken
  }

  function Written(s: Sink, event: Event, taken: bool): Sink {
    var marked := if event.output then s.(last := Some(event.at)) else s;
    if taken then marked.(lines := marked.lines + [Line(event, 0, 0)]) else marked
  }

  function Queued(c: Settings, s: Sink, event: Event): Sink {
    if s.pendingCount < c.maxPending then s.(pending := Some(event), pendingCount := s.pendingCount + 1)
    else s.(pending := Some(event), droppedCount := s.droppedCount + 1)
  }

  predicate WritesNow(c: Settings, s: Sink, event: Event) {
    c.verbose || !event.output || s.last.None? || event.at - s.last.value >= c.interval
  }

  function Emitted(c: Settings, s: Sink, e: Emission): Sink {
    if !WritesNow(c, s, e.event) then Queued(c, s, e.event)
    else if FlushFails(s, e.flushTaken) then Flushed(s, false)
    else Written(Flushed(s, true), e.event, e.lineTaken)
  }

  class StreamEventSink {
    const settings: Settings
    var lastOutputAt: Option<int>
    var pendingOutput: Option<Event>
    var pendingCount: nat
    var droppedCount: nat
    var lines: seq<Line>

    constructor (verbose: bool, interval: int, maxPending: int)
      ensures settings == Adjusted(verbose, interval, maxPending) && Current() == EMPTY_SINK
    {
      settings := Adjusted(verbose, interval, maxPending);
      lastOutputAt, pendingOutput, pendingCount, droppedCount, lines := None, None, 0, 0, [];
    }

    function Current(): Sink
      reads this
    {
      Sink(lastOutputAt, pendingOutput, pendingCount, droppedCount, lines)
    }

    method WriteLine(line: Line, taken: bool) returns (ok: bool)
      modifies this`lines
      ensures ok == taken && lines == if taken then old(lines) + [line] else old(lines)
    {
      if taken {
        lines := lines + [line];
      }
      ok := taken;
    }

    method FlushPendingRunnerOutput(taken: bool) returns (ok: bool)
      modifies this
      ensures Current() == Flushed(old(Current()), taken) && ok == !FlushFails(old(Current()), taken)
    {
      if pendingOutput.None? {
        return true;
      }
      var event := pendingOutput.value;
      var coalesced, dropped: nat := 0, 0;
      if pendingCount - 1 > 0 {
        coalesced := pendingCount - 1;
      }
      if droppedCount > 0 {
        dropped := droppedCount;
      }
      pendingOutput, pendingCount, droppedCount := None, 0, 0;
      lastOutputAt := Some(event.at);
      ok := WriteLine(Line(event, coalesced, dropped), taken);
    }

    method QueueRunnerOutput(event: Event)
      modifies this
      ensures Current() == Queued(settings, old(Current()), event)
    {
      pendingOutput := Some(event);
      if pendingCount < settings.maxPending {
        pendingCount := pendingCount + 1;
        return;
      }
      droppedCount := droppedCount + 1;
    }

    method Emit(e: Emission) returns (ok: bool)
      modifies this
      ensures Current() == Emitted(settings, old(Current()), e)
      ensures ok <==> Succeeds(settings, old(Current()), e)
    {
      var event := e.event;
      if settings.verbose || !event.output {
        ok := FlushPendingRunnerOutput(e.flushTaken);
        if !ok {
          return;
        }
        if event.output {
          lastOutputAt := Some(event.at);
        }
        ok := WriteLine(Line(event, 0, 0), e.lineTaken);
        return;
      }
      if lastOutputAt.None? || event.at - lastOutputAt.value >= settings.interval {
        ok := FlushPendingRunnerOutput(e.flushTaken);
        if !ok {
          return;
        }
        lastOutputAt := Some(event.at);
        ok := WriteLine(Line(event, 0, 0), e.lineTaken);
        return;
      }
      QueueRunnerOutput(event);
      ok := true;
    }
  }

  predicate Succeeds(c: Settings, s: Sink, e: Emission) {
    WritesNow(c, s, e.event) ==> !FlushFails(s, e.flushTaken) && e.lineTaken
  }

  // ---- runs ----

  function EmittedAll(c: Settings, s: Sink, es: seq<Emission>): Sink {
    if es == [] then s else Emitted(c, EmittedAll(c, s, es[..|es| - 1]), es[|es| - 1])
  }

  function Events(es: seq<Emission>): (events: seq<Event>)
    ensures |events| == |es|
  {
    if es == [] then [] else Events(es[..|es| - 1]) + [es[|es| - 1].event]
  }

  predicate AllSucceed(c: Settings, s: Sink, es: seq<Emission>) {
    es == [] || (AllSucceed(c, s, es[..|es| - 1]) && Succeeds(c, EmittedAll(c, s, es[..|es| - 1]), es[|es| - 1]))
  }

  // ---- the lines account for the events ----

  /** The last n events are runner outputs. */
  predicate OutputsAtEnd(events: seq<Event>, n: nat) {
    n <= |events| && forall i :: |events| - n <= i < |events| ==> events[i].output
  }

  function Stands(line: Line): nat {
    1 + line.coalesced + line.dropped
  }

  /** The line is the last of the events it stands for, and if there are several they are
      the outputs that came directly before it. */
  predicate StandsFor(line: Line, events: seq<Event>) {
    events != [] && Stands(line) <= |events| && events[|events| - 1] == line.event &&
    (Stands(line) > 1 ==> OutputsAtEnd(events, Stands(line)))
  }

  /** The lines, in order, stand for consecutive stretches that make up all the events. */
  predicate Cover(lines: seq<Line>, events: seq<Event>) {
    if lines == [] then events == [] else
      StandsFor(lines[|lines| - 1], events) &&
      Cover(lines[..|lines| - 1], events[..|events| - Stands(lines[|lines| - 1])])
  }

  function Waiting(s: Sink): nat {
    s.pendingCount + s.droppedCount
  }

  /** Everything but the events held back is covered; those are the last, and the very last is kept. */
  predicate Accounts(s: Sink, events: seq<Event>) {
    (s.pending.None? <==> Waiting(s) == 0) && (s.droppedCount > 0 ==> s.pendingCount > 0) &&
    OutputsAtEnd(events, Waiting(s)) &&
    (s.pending.Some? ==> events[|events| - 1] == s.pending.value) &&
    Cover(s.lines, events[..|events| - Waiting(s)])
  }

  lemma CoverGrows(lines: seq<Line>, events: seq<Event>, line: Line, stretch: seq<Event>)
    requires Cover(lines, events) && Stands(line) == |stretch| && stretch[|stretch| - 1] == line.event
    requires |stretch| > 1 ==> forall e :: e in stretch ==> e.output
    ensures Cover(lines + [line], events + stretch)
  {
    var all := events + stretch;
    assert (lines + [line])[..|lines|] == lines;
    assert all[..|all| - |stretch|] == events;
    assert StandsFor(line, all);
  }

  lemma FlushAccounts(s: Sink, events: seq<Event>)
    requires Accounts(s, events)
    ensures Accounts(Flushed(s, true), events)
  {
    if s.pending.Some? {
      var n := Waiting(s);
      var stretch := events[|events| - n..];
      assert events == events[..|events| - n] + stretch;
      forall e | e in stretch
        ensures e.output
      {
        var i :| 0 <= i < |stretch| && stretch[i] == e;
        assert events[|events| - n + i] == e;
      }
      CoverGrows(s.lines, events[..|events| - n], Held(s), stretch);
      assert events[..|events| - 0] == events;
    }
  }

  lemma WriteAccounts(s: Sink, events: seq<Event>, event: Event)
    requires Accounts(s, events) && s.pending.None?
    ensures Accounts(Written(s, event, true), events + [event])
  {
    assert events[..|events|] == events;
    CoverGrows(s.lines, events, Line(event, 0, 0), [event]);
    assert (events + [event])[..|events| + 1] == events + [event];
  }

  lemma QueueAccounts(c: Settings, s: Sink, events: seq<Event>, event: Event)
    requires Accounts(s, events) && event.output && c.maxPending > 0
    ensures Accounts(Queued(c, s, event), events + [event])
  {
    var all := events + [event];
    var after := Queued(c, s, event);
    assert Waiting(after) == Waiting(s) + 1;
    assert all[..|all| - Waiting(after)] == events[..|events| - Waiting(s)];
  }

  /** While every emit succeeds, the lines and what is held back account for every event:
      other events have a line of their own, nothing is out of order, and each held output
      is counted by the next line. */
  lemma {:induction false} NothingUnaccounted(c: Settings, es: seq<Emission>)
    requires c.maxPending > 0 && AllSucceed(c, EMPTY_SINK, es)
    ensures Accounts(EmittedAll(c, EMPTY_SINK, es), Events(es))
    decreases |es|
  {
    hide Accounts, Flushed, Written, Queued;
    if es == [] {
      NothingYet();
    } else {
      var front, e := es[..|es| - 1], es[|es| - 1];
      NothingUnaccounted(c, front);
      var s := EmittedAll(c, EMPTY_SINK, front);
      if WritesNow(c, s, e.event) {
        FlushAccounts(s, Events(front));
        NothingPending(s);
        WriteAccounts(Flushed(s, true), Events(front), e.event);
      } else {
        QueueAccounts(c, s, Events(front), e.event);
      }
    }
  }

  lemma NothingYet()
    ensures Accounts(EMPTY_SINK, [])
  {
  }

  lemma NothingPending(s: Sink)
    ensures Flushed(s, true).pending.None?
  {
  }

  // ---- what a reader of the lines can count ----

  function Outputs(events: seq<Event>): nat {
    if events == [] then 0 else Outputs(events[..|events| - 1]) + if events[|events| - 1].output then 1 else 0
  }

  function OutputsIn(lines: seq<Line>): nat {
    if lines == [] then 0 else
      OutputsIn(lines[..|lines| - 1]) + if lines[|lines| - 1].event.output then Stands(lines[|lines| - 1]) else 0
  }

  function Others(events: seq<Event>): seq<Event> {
    if events == [] then [] else
      Others(events[..|events| - 1]) + if events[|events| - 1].output then [] else [events[|events| - 1]]
  }

  function OthersIn(lines: seq<Line>): seq<Event> {
    if lines == [] then [] else
      OthersIn(lines[..|lines| - 1]) + if lines[|lines| - 1].event.output then [] else [lines[|lines| - 1].event]
  }

  lemma {:induction false} OutputsOnly(events: seq<Event>, n: nat)
    requires OutputsAtEnd(events, n)
    ensures Outputs(events) == Outputs(events[..|events| - n]) + n
    ensures Others(events) == Others(events[..|events| - n])
    decreases n
  {
    if n == 0 {
      assert events[..|events|] == events;
    } else {
      var front := events[..|events| - 1];
      OutputsOnly(front, n - 1);
      assert front[..|front| - (n - 1)] == events[..|events| - n];
    }
  }

  lemma {:induction false} CoverCounts(lines: seq<Line>, events: seq<Event>)
    requires Cover(lines, events)
    ensures OutputsIn(lines) == Outputs(events) && OthersIn(lines) == Others(events)
    decreases |lines|
  {
    if lines != [] {
      var line := lines[|lines| - 1];
      var front := events[..|events| - Stands(line)];
      CoverCounts(lines[..|lines| - 1], front);
      if Stands(line) > 1 {
        OutputsOnly(events, Stands(line));
      }
    }
  }

  /** Outputs received = outputs written + coalesced + dropped + held back; and the other
      events are exactly the other lines, each once, in the order they came. */
  lemma OutputsConserved(c: Settings, es: seq<Emission>)
    requires c.maxPending > 0 && AllSucceed(c, EMPTY_SINK, es)
    ensures var s := EmittedAll(c, EMPTY_SINK, es);
      Outputs(Events(es)) == OutputsIn(s.lines) + s.pendingCount + s.droppedCount &&
      Others(Events(es)) == OthersIn(s.lines)
  {
    hide EmittedAll, AllSucceed, Events;
    NothingUnaccounted(c, es);
    AccountsCount(EmittedAll(c, EMPTY_SINK, es), Events(es));
  }

  lemma AccountsCount(s: Sink, events: seq<Event>)
    requires Accounts(s, events)
    ensures Outputs(events) == OutputsIn(s.lines) + Waiting(s) && Others(events) == OthersIn(s.lines)
  {
    hide Outputs, Others, OutputsIn, OthersIn, Cover;
    OutputsOnly(events, Waiting(s));
    CoverCounts(s.lines, events[..|events| - Waiting(s)]);
  }

  // ---- when writing fails ----

  /** The outputs a failing emit loses for good. */
  function Lost(c: Settings, s: Sink, e: Emission): nat {
    if !WritesNow(c, s, e.event) then 0
    else if FlushFails(s, e.flushTaken) then Waiting(s) + (if e.event.output then 1 else 0)
    else if !e.lineTaken && e.event.output then 1 else 0
  }

  function LostAll(c: Settings, es: seq<Emission>): nat {
    if es == [] then 0 else
      LostAll(c, es[..|es| - 1]) + Lost(c, EmittedAll(c, EMPTY_SINK, es[..|es| - 1]), es[|es| - 1])
  }

  predicate Counted(s: Sink) {
    (s.pending.None? <==> Waiting(s) == 0) && (s.droppedCount > 0 ==> s.pendingCount > 0) &&
    (s.pending.Some? ==> s.pending.value.output)
  }

  lemma OneEmission(c: Settings, s: Sink, e: Emission)
    requires Counted(s) && c.maxPending > 0
    ensures var after := Emitted(c, s, e);
      Counted(after) &&
      OutputsIn(after.lines) + Waiting(after) + Lost(c, s, e) ==
        OutputsIn(s.lines) + Waiting(s) + if e.event.output then 1 else 0
  {
    if s.pending.Some? {
      LineCounts(s.lines, Held(s));
      LineCounts(s.lines + [Held(s)], Line(e.event, 0, 0));
    }
    LineCounts(s.lines, Line(e.event, 0, 0));
  }

  lemma LineCounts(lines: seq<Line>, line: Line)
    ensures OutputsIn(lines + [line]) == OutputsIn(lines) + if line.event.output then Stands(line) else 0
  {
    assert (lines + [line])[..|lines|] == lines;
  }

  /** With failing writes the balance is short by exactly what those emits lost: the event
      that came and, when its flush failed, everything held back. */
  lemma {:induction false} FailuresLoseOnlyTheirOwn(c: Settings, es: seq<Emission>)
    requires c.maxPending > 0
    ensures var s := EmittedAll(c, EMPTY_SINK, es);
      Counted(s) && Outputs(Events(es)) == OutputsIn(s.lines) + s.pendingCount + s.droppedCount + LostAll(c, es)
    decreases |es|
  {
    hide Emitted, Counted, Lost;
    if es == [] {
      NothingCounted();
    } else {
      FailuresLoseOnlyTheirOwn(c, es[..|es| - 1]);
      OneEmission(c, EmittedAll(c, EMPTY_SINK, es[..|es| - 1]), es[|es| - 1]);
    }
  }

  lemma NothingCounted()
    ensures Counted(EMPTY_SINK)
  {
  }

  // ---- the interval ----

  function After(c: Settings, es: seq<Emission>, n: nat): Sink
    requires n <= |es|
  {
    EmittedAll(c, EMPTY_SINK, es[..n])
  }

  lemma AfterNext(c: Settings, es: seq<Emission>, n: nat)
    requires n < |es|
    ensures After(c, es, n + 1) == Emitted(c, After(c, es, n), es[n])
  {
    assert es[..n + 1][..n] == es[..n];
  }

  /** The output at i is written by itself: nothing is held back after it. */
  predicate IsDirect(c: Settings, es: seq<Emission>, i: nat) {
    i < |es| && es[i].event.output && After(c, es, i + 1).pending.None?
  }

  ghost predicate InTime(es: seq<Emission>) {
    forall i, j :: 0 <= i <= j < |es| ==> es[i].event.at <= es[j].event.at
  }

  /** The sink's clock stands at the time of some earlier output. */
  lemma {:induction false} LastIsAnOutput(c: Settings, es: seq<Emission>, n: nat)
    requires n <= |es|
    ensures var s := After(c, es, n);
      (s.last.Some? ==> exists k: nat :: k < n && es[k].event.output && es[k].event.at == s.last.value) &&
      (s.pending.Some? ==> exists k: nat :: k < n && es[k].event.output && es[k].event == s.pending.value)
    decreases n
  {
    hide After;
    if n == 0 {
      NothingEmitted(c, es);
    } else {
      LastIsAnOutput(c, es, n - 1);
      AfterNext(c, es, n - 1);
      ClockMoves(c, After(c, es, n - 1), es[n - 1]);
    }
  }

  lemma NothingEmitted(c: Settings, es: seq<Emission>)
    ensures After(c, es, 0) == EMPTY_SINK
  {
    assert es[..0] == [];
  }

  lemma ClockMoves(c: Settings, s: Sink, e: Emission)
    ensures var after := Emitted(c, s, e);
      (after.last == s.last || (s.pending.Some? && after.last == Some(s.pending.value.at)) ||
       (e.event.output && after.last == Some(e.event.at))) &&
      (after.pending.None? || after.pending == s.pending || (e.event.output && after.pending == Some(e.event)))
  {
  }

  /** Exactly which outputs are held back: without verbose, those that come less than the
      interval after what the clock stands at. */
  lemma HeldBackIff(c: Settings, es: seq<Emission>, i: nat)
    requires i < |es| && es[i].event.output
    ensures var last := After(c, es, i).last;
      !IsDirect(c, es, i) <==> !c.verbose && last.Some? && es[i].event.at - last.value < c.interval
    ensures !IsDirect(c, es, i) ==>
      exists k: nat :: k < i && es[k].event.output && es[i].event.at - es[k].event.at < c.interval
  {
    hide After;
    AfterNext(c, es, i);
    LastIsAnOutput(c, es, i);
  }

  lemma {:induction false} ClockSince(c: Settings, es: seq<Emission>, i: nat, n: nat)
    requires !c.verbose && InTime(es) && AllSucceed(c, EMPTY_SINK, es) && i < n <= |es| && IsDirect(c, es, i)
    ensures var s := After(c, es, n);
      s.last.Some? && s.last.value >= es[i].event.at && (s.pending.Some? ==> s.pending.value.at >= es[i].event.at)
    decreases n
  {
    hide After, AllSucceed;
    AfterNext(c, es, n - 1);
    EachSucceeds(c, es, n - 1);
    if n - 1 > i {
      ClockSince(c, es, i, n - 1);
    }
    assert es[i].event.at <= es[n - 1].event.at;
  }

  lemma {:induction false} EachSucceeds(c: Settings, es: seq<Emission>, i: nat)
    requires AllSucceed(c, EMPTY_SINK, es) && i < |es|
    ensures Succeeds(c, After(c, es, i), es[i])
    decreases |es|
  {
    var n := |es| - 1;
    if i < n {
      EachSucceeds(c, es[..n], i);
      assert es[..n][..i] == es[..i];
    } else {
      assert es[..n] == es[..i];
    }
  }

  /** Without verbose, and while times do not go back and writing works, two outputs that
      are written by themselves lie at least the interval apart. */
  lemma DirectOutputsApart(c: Settings, es: seq<Emission>, i: nat, j: nat)
    requires !c.verbose && InTime(es) && AllSucceed(c, EMPTY_SINK, es)
    requires i < j && IsDirect(c, es, i) && IsDirect(c, es, j)
    ensures es[j].event.at - es[i].event.at >= c.interval
  {
    hide After, AllSucceed, InTime;
    ClockSince(c, es, i, j);
    HeldBackIff(c, es, j);
  }

  /** With times that go back they need not: an old output that was held back sets the clock
      back when it is flushed. */
  lemma ClockGoesBack()
    ensures var c := Settings(false, 5, 64);
      var es := [
        Emission(Event(true, 100, ""), true, true), Emission(Event(true, 50, ""), true, true),
        Emission(Event(false, 101, ""), true, true), Emission(Event(true, 102, ""), true, true)];
      AllSucceed(c, EMPTY_SINK, es) && IsDirect(c, es, 0) && IsDirect(c, es, 3) &&
      es[3].event.at - es[0].event.at < c.interval
  {
    var c := Settings(false, 5, 64);
    var es := [
      Emission(Event(true, 100, ""), true, true), Emission(Event(true, 50, ""), true, true),
      Emission(Event(false, 101, ""), true, true), Emission(Event(true, 102, ""), true, true)];
    NothingEmitted(c, es);
    AfterNext(c, es, 0);
    AfterNext(c, es, 1);
    AfterNext(c, es, 2);
    AfterNext(c, es, 3);
    assert After(c, es, 1).last == Some(100) && After(c, es, 2).pending == Some(Event(true, 50, ""));
    assert After(c, es, 3).last == Some(50) && After(c, es, 4).last == Some(102);
    OneMoreSucceeds(c, es, 0);
    OneMoreSucceeds(c, es, 1);
    OneMoreSucceeds(c, es, 2);
    OneMoreSucceeds(c, es, 3);
    assert es[..0] == [] && es[..4] == es;
  }

  lemma OneMoreSucceeds(c: Settings, es: seq<Emission>, n: nat)
    requires n < |es|
    ensures AllSucceed(c, EMPTY_SINK, es[..n + 1]) <==>
      AllSucceed(c, EMPTY_SINK, es[..n]) && Succeeds(c, After(c, es, n), es[n])
  {
    assert es[..n + 1][..n] == es[..n];
  }
}
