/** Task status commands (internal/distributed/mastermind.go, handleTaskStatusUpdate):
    versioned writes to several task backends, decided once per command id. */
module StatusCommands {
  import opened Ordering
  import opened Wrappers

  /** What arrives on the bus.  An empty command id has already been replaced by the
      correlation id or a generated one; served counts the backend writes that succeed
      before the next one fails. */
  datatype Delivery =
    | Unreadable
    | Delivery(id: string, task: string, status: string, token: string, backends: seq<string>,
               expected: int, comment: map<string, string>, served: nat)

  datatype Reason =
    | MissingStatus
    | BadToken
    | NoBackends
    | UnknownBackend(backend: string)
    | VersionConflict(backend: string)
    | WriteFailed(backend: string)

  datatype Verdict = Accepted(versions: map<string, nat>) | Rejected(reason: Reason)

  datatype Record = Record(task: string, status: string, backends: seq<string>, verdict: Verdict)

  datatype Reply = NotConfigured | Malformed | MissingTask | Acked(record: Record) | Refused(record: Record)

  datatype Write =
    | StatusWrite(backend: string, task: string, status: string)
    | DataWrite(backend: string, task: string, data: map<string, string>)

  /** The versions and commands the mastermind keeps, and what the backends were told. */
  datatype State = State(versions: map<(string, string), nat>, commands: map<string, Record>, log: seq<Write>)

  datatype Config = Config(writers: set<string>, token: string)

  function Version(s: State, backend: string, task: string): nat {
    if (backend, task) in s.versions then s.versions[(backend, task)] else 0
  }

  function Bump(s: State, backend: string, task: string): State {
    s.(versions := s.versions[(backend, task) := Version(s, backend, task) + 1])
  }

  /** Backend names without repeats or blanks, in order. */
  function Canonical(names: set<string>): (r: seq<string>)
    ensures Ascending(r) && Elements(r) == names - {""}
  {
    SortedKeys(names - {""})
  }

  function Targets(c: Config, d: Delivery): seq<string>
    requires d.Delivery?
  {
    var named := Canonical(Elements(d.backends));
    if named == [] then Canonical(c.writers) else named
  }

  function FirstObjection(s: State, c: Config, d: Delivery, targets: seq<string>): Option<Reason>
    requires d.Delivery?
  {
    if targets == [] then None
    else if targets[0] !in c.writers then Some(UnknownBackend(targets[0]))
    else if d.expected > 0 && Version(s, targets[0], d.task) != d.expected then Some(VersionConflict(targets[0]))
    else FirstObjection(s, c, d, targets[1..])
  }

  /** Everything checked before the first write. */
  function Objection(s: State, c: Config, d: Delivery): Option<Reason>
    requires d.Delivery?
  {
    if d.status == "" then Some(MissingStatus)
    else if c.token != "" && d.token != c.token then Some(BadToken)
    else if Targets(c, d) == [] then Some(NoBackends)
    else FirstObjection(s, c, d, Targets(c, d))
  }

  function WriteAll(s: State, d: Delivery, targets: seq<string>, served: nat): (State, Option<string>)
    requires d.Delivery?
    decreases |targets|
  {
    if targets == [] then (s, None)
    else if served == 0 then (s, Some(targets[0]))
    else
      var told := s.(log := s.log + [StatusWrite(targets[0], d.task, d.status)]);
      if d.comment == map[] then WriteAll(Bump(told, targets[0], d.task), d, targets[1..], served - 1)
      else if served == 1 then (told, Some(targets[0]))
      else
        var commented := told.(log := told.log + [DataWrite(targets[0], d.task, d.comment)]);
        WriteAll(Bump(commented, targets[0], d.task), d, targets[1..], served - 2)
  }

  function NewVersions(s: State, task: string, targets: seq<string>): map<string, nat> {
    map b | b in targets :: Version(s, b, task)
  }

  function Reject(s: State, d: Delivery, reason: Reason): (State, Reply)
    requires d.Delivery? && d.id !in s.commands
  {
    var record := Record(d.task, d.status, Canonical(Elements(d.backends)), Rejected(reason));
    (s.(commands := s.commands[d.id := record]), Refused(record))
  }

  function Handle(s: State, c: Config, d: Delivery): (State, Reply) {
    if c.writers == {} then (s, NotConfigured)
    else if d.Unreadable? then (s, Malformed)
    else if d.id in s.commands then (s, Acked(s.commands[d.id]))
    else if d.task == "" then (s, MissingTask)
    else match Objection(s, c, d)
      case Some(reason) => Reject(s, d, reason)
      case None =>
        var (written, failed) := WriteAll(s, d, Targets(c, d), d.served);
        WritesKeepCommands(s, d, Targets(c, d), d.served);
        if failed.Some? then Reject(written, d, WriteFailed(failed.value)) else
          var record := Record(d.task, d.status, Targets(c, d), Accepted(NewVersions(written, d.task, Targets(c, d))));
          (written.(commands := written.commands[d.id := record]), Acked(record))
  }

  lemma {:induction false} WritesKeepCommands(s: State, d: Delivery, targets: seq<string>, served: nat)
    requires d.Delivery?
    ensures WriteAll(s, d, targets, served).0.commands == s.commands
    decreases |targets|
  {
    if targets != [] && served > 0 {
      var told := s.(log := s.log + [StatusWrite(targets[0], d.task, d.status)]);
      if d.comment == map[] {
        WritesKeepCommands(Bump(told, targets[0], d.task), d, targets[1..], served - 1);
      } else if served > 1 {
        var commented := told.(log := told.log + [DataWrite(targets[0], d.task, d.comment)]);
        WritesKeepCommands(Bump(commented, targets[0], d.task), d, targets[1..], served - 2);
      }
    }
  }

  // ---- the handler ----

  class Mastermind {
    const config: Config
    var versions: map<(string, string), nat>
    var commands: map<string, Record>
    var log: seq<Write>

    constructor (config: Config)
      ensures this.config == config && Current() == State(map[], map[], [])
    {
      this.config := config;
      versions, commands, log := map[], map[], [];
    }

    function Current(): State
      reads this
    {
      State(versions, commands, log)
    }

    method RejectStatusUpdate(d: Delivery, reason: Reason) returns (reply: Reply)
      requires d.Delivery? && d.id !in commands
      modifies this
      ensures (Current(), reply) == Reject(old(Current()), d, reason)
    {
      var record := Record(d.task, d.status, Canonical(Elements(d.backends)), Rejected(reason));
      commands := commands[d.id := record];
      reply := Refused(record);
    }

    /** Reads the current versions, up to the first backend that objects. */
    method CheckVersions(d: Delivery, targets: seq<string>)
      returns (objection: Option<Reason>, current: map<string, nat>)
      requires d.Delivery?
      ensures objection == FirstObjection(Current(), config, d, targets)
      ensures objection.None? ==> forall b :: b in targets ==>
        b in current && current[b] == Version(Current(), b, d.task)
    {
      current := map[];
      var i := 0;
      while i < |targets|
        invariant 0 <= i <= |targets|
        invariant FirstObjection(Current(), config, d, targets) == FirstObjection(Current(), config, d, targets[i..])
        invariant forall b :: b in targets[..i] ==> b in current && current[b] == Version(Current(), b, d.task)
      {
        var backend := targets[i];
        assert targets[i..][1..] == targets[i + 1..];
        if backend !in config.writers {
          return Some(UnknownBackend(backend)), current;
        }
        current := current[backend := if (backend, d.task) in versions then versions[(backend, d.task)] else 0];
        if d.expected > 0 && current[backend] != d.expected {
          return Some(VersionConflict(backend)), current;
        }
        assert targets[..i + 1] == targets[..i] + [targets[i]];
        i := i + 1;
      }
      assert targets[..|targets|] == targets;
      objection := None;
    }

    method WriteBackends(d: Delivery, targets: seq<string>, current: map<string, nat>)
      returns (failed: Option<string>, newVersions: map<string, nat>)
      requires d.Delivery? && Ascending(targets)
      requires forall b :: b in targets ==> b in current && current[b] == Version(Current(), b, d.task)
      modifies this`versions, this`log
      ensures (Current(), failed) == WriteAll(old(Current()), d, targets, d.served)
      ensures failed.None? ==> newVersions == NewVersions(Current(), d.task, targets)
    {
      hide Ascending, Less, WriteAll, Ahead, Bump, Version;
      var left := d.served;
      newVersions := map[];
      AheadStart(Current(), d.task, targets, current);
      assert targets[0..] == targets;
      var i := 0;
      while i < |targets|
        invariant 0 <= i <= |targets|
        invariant commands == old(commands)
        invariant WriteAll(old(Current()), d, targets, d.served) == WriteAll(Current(), d, targets[i..], left)
        invariant Ahead(Current(), d.task, targets, i, current, newVersions)
      {
        var backend := targets[i];
        ghost var s := Current();
        AheadStep(s, d.task, targets, i, current, newVersions);
        WriteNext(s, d, targets, i, left);
        if left == 0 {
          return Some(backend), newVersions;
        }
        log, left := log + [StatusWrite(backend, d.task, d.status)], left - 1;
        if d.comment != map[] {
          if left == 0 {
            return Some(backend), newVersions;
          }
          log, left := log + [DataWrite(backend, d.task, d.comment)], left - 1;
        }
        newVersions := newVersions[backend := current[backend] + 1];
        versions := versions[(backend, d.task) := current[backend] + 1];
        BumpIs(s, backend, d.task, log);
        i := i + 1;
      }
      WriteNone(Current(), d, targets, left);
      AheadDone(Current(), d.task, targets, current, newVersions);
      failed := None;
    }

    method HandleTaskStatusUpdate(d: Delivery) returns (reply: Reply)
      modifies this
      ensures (Current(), reply) == Handle(old(Current()), config, d)
    {
      hide WriteAll, FirstObjection, Ascending, Less, Elements, SortedKeys;
      if config.writers == {} {
        return NotConfigured;
      }
      if d.Unreadable? {
        return Malformed;
      }
      if d.id in commands {
        return Acked(commands[d.id]);
      }
      if d.task == "" {
        return MissingTask;
      }
      if d.status == "" {
        reply := RejectStatusUpdate(d, MissingStatus);
        return;
      }
      if config.token != "" && d.token != config.token {
        reply := RejectStatusUpdate(d, BadToken);
        return;
      }
      var backends := Canonical(Elements(d.backends));
      if |backends| == 0 {
        backends := Canonical(config.writers);
      }
      if |backends| == 0 {
        reply := RejectStatusUpdate(d, NoBackends);
        return;
      }
      var objection, current := CheckVersions(d, backends);
      if objection.Some? {
        reply := RejectStatusUpdate(d, objection.value);
        return;
      }
      WritesKeepCommands(Current(), d, backends, d.served);
      var failed, newVersions := WriteBackends(d, backends, current);
      if failed.Some? {
        reply := RejectStatusUpdate(d, WriteFailed(failed.value));
        return;
      }
      var record := Record(d.task, d.status, backends, Accepted(newVersions));
      commands := commands[d.id := record];
      reply := Acked(record);
    }
  }

  /** While writing: the backends already written are one further, the others as read. */
  predicate Ahead(s: State, task: string, targets: seq<string>, i: nat, current: map<string, nat>,
                  newVersions: map<string, nat>) {
    i <= |targets| && (forall b :: b in targets ==> b in current) &&
    newVersions.Keys == Elements(targets[..i]) && NoRepeats(targets) &&
    (forall b :: b in newVersions ==> newVersions[b] == Version(s, b, task)) &&
    forall j :: i <= j < |targets| ==> Version(s, targets[j], task) == current[targets[j]]
  }

  lemma AheadStart(s: State, task: string, targets: seq<string>, current: map<string, nat>)
    requires Ascending(targets) && forall b :: b in targets ==> b in current && current[b] == Version(s, b, task)
    ensures Ahead(s, task, targets, 0, current, map[])
  {
    forall j, k | 0 <= j < k < |targets|
      ensures targets[j] != targets[k]
    {
      LessIrreflexive(targets[j]);
    }
  }

  lemma AheadStep(s: State, task: string, targets: seq<string>, i: nat, current: map<string, nat>,
                  newVersions: map<string, nat>)
    requires i < |targets| && Ahead(s, task, targets, i, current, newVersions)
    ensures targets[i] in current && current[targets[i]] == Version(s, targets[i], task)
    ensures forall log :: var b := targets[i];
      Ahead(Bump(s.(log := log), b, task), task, targets, i + 1, current, newVersions[b := current[b] + 1])
  {
    assert targets[..i + 1] == targets[..i] + [targets[i]];
  }

  lemma BumpIs(s: State, b: string, task: string, log: seq<Write>)
    ensures Bump(s.(log := log), b, task) == State(s.versions[(b, task) := Version(s, b, task) + 1], s.commands, log)
  {
  }

  lemma WriteNext(s: State, d: Delivery, targets: seq<string>, i: nat, left: nat)
    requires d.Delivery? && i < |targets|
    ensures var told := s.log + [StatusWrite(targets[i], d.task, d.status)];
      var w := WriteAll(s, d, targets[i..], left);
      (left == 0 ==> w == (s, Some(targets[i]))) &&
      (left > 0 && d.comment == map[] ==>
        w == WriteAll(Bump(s.(log := told), targets[i], d.task), d, targets[i + 1..], left - 1)) &&
      (left == 1 && d.comment != map[] ==> w == (s.(log := told), Some(targets[i]))) &&
      (left > 1 && d.comment != map[] ==>
        w == WriteAll(
          Bump(s.(log := told + [DataWrite(targets[i], d.task, d.comment)]), targets[i], d.task), d, targets[i + 1..],
            left - 2))
  {
    assert targets[i..][1..] == targets[i + 1..];
  }

  lemma WriteNone(s: State, d: Delivery, targets: seq<string>, left: nat)
    requires d.Delivery?
    ensures WriteAll(s, d, targets[|targets|..], left) == (s, None)
  {
  }

  lemma AheadDone(s: State, task: string, targets: seq<string>, current: map<string, nat>,
                  newVersions: map<string, nat>)
    requires Ahead(s, task, targets, |targets|, current, newVersions)
    ensures newVersions == NewVersions(s, task, targets)
  {
    assert targets[..|targets|] == targets;
  }

  // ---- what a single delivery does ----

  /** The version of each named backend is one higher, all others as before. */
  ghost predicate Advanced(before: State, after: State, task: string, written: set<string>) {
    forall b, t :: Version(after, b, t) == Version(before, b, t) + if t == task && b in written then 1 else 0
  }

  /** A write pass advances exactly the backends before the one that failed. */
  lemma {:induction false} WritesAdvance(s: State, d: Delivery, targets: seq<string>, served: nat) returns (n: nat)
    requires d.Delivery? && NoRepeats(targets)
    ensures n <= |targets|
    ensures var (after, failed) := WriteAll(s, d, targets, served);
      Advanced(s, after, d.task, Elements(targets[..n])) &&
      failed == if n == |targets| then None else Some(targets[n])
    decreases |targets|
  {
    if targets == [] || served == 0 || (d.comment != map[] && served == 1) {
      n := 0;
    } else {
      var told := s.(log := s.log + [StatusWrite(targets[0], d.task, d.status)]);
      var commented := told.(log := told.log + [DataWrite(targets[0], d.task, d.comment)]);
      var next := Bump(if d.comment == map[] then told else commented, targets[0], d.task);
      var m := WritesAdvance(next, d, targets[1..], if d.comment == map[] then served - 1 else served - 2);
      n := m + 1;
      assert targets[..n] == [targets[0]] + targets[1..][..m];
      assert targets[0] !in targets[1..][..m];
    }
  }

  lemma TargetsDistinct(c: Config, d: Delivery)
    requires d.Delivery?
    ensures NoRepeats(Targets(c, d))
  {
    var targets := Targets(c, d);
    forall j, k | 0 <= j < k < |targets|
      ensures targets[j] != targets[k]
    {
      LessIrreflexive(targets[j]);
    }
  }

  /** The backends a command is for: those it names, and all that are configured when it
      names none; a blank name counts for nothing. */
  function Meant(c: Config, d: Delivery): set<string>
    requires d.Delivery?
  {
    if exists b :: b in d.backends && b != "" then set b | b in d.backends && b != "" else c.writers - {""}
  }

  lemma TargetsAreMeant(c: Config, d: Delivery)
    requires d.Delivery?
    ensures Ascending(Targets(c, d)) && NoRepeats(Targets(c, d)) && |Targets(c, d)| == |Meant(c, d)|
    ensures forall b :: b in Targets(c, d) <==> b in Meant(c, d)
  {
    hide SortedKeys, Ascending;
    TargetsDistinct(c, d);
    var named := Canonical(Elements(d.backends));
    assert named != [] ==> named[0] in Elements(named);
    var meant := set b | b in d.backends && b != "";
    assert Elements(named) == meant;
    if b :| b in d.backends && b != "" {
      assert b in meant;
    } else {
      assert meant == {};
    }
    assert Elements(Targets(c, d)) == Meant(c, d);
    assert forall b :: b in Targets(c, d) <==> b in Elements(Targets(c, d));
    DistinctCount(Targets(c, d));
  }

  lemma {:induction false} DistinctCount(names: seq<string>)
    requires NoRepeats(names)
    ensures |Elements(names)| == |names|
    decreases |names|
  {
    if names != [] {
      var front, last := names[..|names| - 1], names[|names| - 1];
      DistinctCount(front);
      assert names == front + [last];
      assert Elements(names) == Elements(front) + {last};
    }
  }

  /** The delivery decides its command: it is the first with this id to be recorded. */
  predicate Decides(s: State, c: Config, d: Delivery) {
    d.Delivery? && d.id !in s.commands && d.id in Handle(s, c, d).0.commands
  }

  predicate Accepts(s: State, c: Config, d: Delivery) {
    Decides(s, c, d) && Handle(s, c, d).0.commands[d.id].verdict.Accepted?
  }

  predicate FailsToWrite(s: State, c: Config, d: Delivery) {
    Decides(s, c, d) && Handle(s, c, d).0.commands[d.id].verdict.Rejected? &&
    Handle(s, c, d).0.commands[d.id].verdict.reason.WriteFailed?
  }

  /** Backends whose version a delivery raised: all of them when accepted; when a write
      failed, exactly the ones before it in order; otherwise none. */
  lemma WhatAdvances(s: State, c: Config, d: Delivery) returns (n: nat)
    ensures d.Delivery? ==> n <= |Targets(c, d)|
    ensures Advanced(s, Handle(s, c, d).0, if d.Delivery? then d.task else "",
                     if d.Delivery? then Elements(Targets(c, d)[..n]) else {})
    ensures Accepts(s, c, d) ==> n == |Targets(c, d)|
    ensures n > 0 ==> Decides(s, c, d)
    ensures Decides(s, c, d) && !Accepts(s, c, d) && n > 0 ==>
      n < |Targets(c, d)| && Handle(s, c, d).0.commands[d.id].verdict == Rejected(WriteFailed(Targets(c, d)[n]))
    ensures FailsToWrite(s, c, d) ==>
      n < |Targets(c, d)| && Handle(s, c, d).0.commands[d.id].verdict.reason.backend == Targets(c, d)[n]
  {
    hide WriteAll, FirstObjection, Canonical;
    n := 0;
    if d.Delivery? && c.writers != {} && d.id !in s.commands && d.task != "" {
      ObjectionIsNoWriteFailure(s, c, d);
      if Objection(s, c, d).None? {
        TargetsDistinct(c, d);
        WritesKeepCommands(s, d, Targets(c, d), d.served);
        n := WritesAdvance(s, d, Targets(c, d), d.served);
      }
    }
  }

  lemma ObjectionIsNoWriteFailure(s: State, c: Config, d: Delivery)
    requires d.Delivery?
    ensures Objection(s, c, d).Some? ==> !Objection(s, c, d).value.WriteFailed?
  {
    FirstObjectionIs(s, c, d, Targets(c, d));
  }

  /** The first pass objects exactly when some backend is unknown or not at the expected version. */
  lemma {:induction false} FirstObjectionIs(s: State, c: Config, d: Delivery, targets: seq<string>)
    requires d.Delivery?
    ensures FirstObjection(s, c, d, targets).None? <==>
      forall b :: b in targets ==> b in c.writers && (d.expected > 0 ==> Version(s, b, d.task) == d.expected)
    ensures FirstObjection(s, c, d, targets).Some? ==> !FirstObjection(s, c, d, targets).value.WriteFailed?
    decreases |targets|
  {
    if targets != [] {
      FirstObjectionIs(s, c, d, targets[1..]);
      assert targets == [targets[0]] + targets[1..];
    }
  }

  /** Accepted when known, signed, complete, at the expected version everywhere, and written everywhere. */
  lemma AcceptedNeeds(s: State, c: Config, d: Delivery)
    requires Accepts(s, c, d)
    ensures d.task != "" && d.status != "" && (c.token == "" || d.token == c.token)
    ensures forall b :: b in Meant(c, d) ==>
      b in c.writers && (d.expected > 0 ==> Version(s, b, d.task) == d.expected)
    ensures var record := Handle(s, c, d).0.commands[d.id];
      record.task == d.task && record.status == d.status && Elements(record.backends) == Meant(c, d) &&
      Handle(s, c, d).1 == Acked(record)
    ensures Handle(s, c, d).0.commands[d.id].verdict.versions.Keys == Meant(c, d)
    ensures forall b :: b in Meant(c, d) ==>
      Handle(s, c, d).0.commands[d.id].verdict.versions[b] == Version(s, b, d.task) + 1
  {
    hide WriteAll, FirstObjection, Canonical, Meant, Targets;
    TargetsAreMeant(c, d);
    FirstObjectionIs(s, c, d, Targets(c, d));
    WritesKeepCommands(s, d, Targets(c, d), d.served);
    TargetsDistinct(c, d);
    var n := WritesAdvance(s, d, Targets(c, d), d.served);
    assert Targets(c, d)[..|Targets(c, d)|] == Targets(c, d);
  }

  function CallsNeeded(d: Delivery, n: nat): nat
    requires d.Delivery?
  {
    if d.comment == map[] then n else n + n
  }

  lemma {:induction false} WritesFinish(s: State, d: Delivery, targets: seq<string>, served: nat)
    requires d.Delivery?
    ensures WriteAll(s, d, targets, served).1.None? <==> served >= CallsNeeded(d, |targets|)
    decreases |targets|
  {
    if targets != [] && served >= CallsNeeded(d, 1) {
      var told := s.(log := s.log + [StatusWrite(targets[0], d.task, d.status)]);
      var commented := told.(log := told.log + [DataWrite(targets[0], d.task, d.comment)]);
      var next := Bump(if d.comment == map[] then told else commented, targets[0], d.task);
      WritesFinish(next, d, targets[1..], served - CallsNeeded(d, 1));
    }
  }

  /** Exactly when a command is accepted. */
  lemma AcceptsIff(s: State, c: Config, d: Delivery)
    requires d.Delivery?
    ensures Accepts(s, c, d) <==>
      d.id !in s.commands && d.task != "" && d.status != "" && (c.token == "" || d.token == c.token) &&
      c.writers != {} && Meant(c, d) != {} && d.served >= CallsNeeded(d, |Meant(c, d)|) &&
      forall b :: b in Meant(c, d) ==> b in c.writers && (d.expected > 0 ==> Version(s, b, d.task) == d.expected)
  {
    hide WriteAll, FirstObjection, Canonical, Meant, Targets;
    TargetsAreMeant(c, d);
    FirstObjectionIs(s, c, d, Targets(c, d));
    WritesFinish(s, d, Targets(c, d), d.served);
    WritesKeepCommands(s, d, Targets(c, d), d.served);
  }

  /** A command that names a backend nobody configured is never accepted. */
  lemma UnknownNeverAccepted(s: State, c: Config, d: Delivery, b: string)
    requires d.Delivery? && b in d.backends && b != "" && b !in c.writers
    ensures !Accepts(s, c, d)
  {
    hide Accepts;
    AcceptsIff(s, c, d);
  }

  predicate Agrees(s: State, c: Config, d: Delivery, b: string)
    requires d.Delivery?
  {
    b in c.writers && (d.expected > 0 ==> Version(s, b, d.task) == d.expected)
  }

  /** The cause each refusal names. */
  ghost predicate IsCause(s: State, c: Config, d: Delivery, reason: Reason)
    requires d.Delivery?
  {
    match reason
    case MissingStatus => d.status == ""
    case BadToken => d.status != "" && c.token != "" && d.token != c.token
    case NoBackends => Meant(c, d) == {}
    case UnknownBackend(b) => FirstToDiffer(s, c, d, b) && b !in c.writers
    case VersionConflict(b) =>
      FirstToDiffer(s, c, d, b) && b in c.writers && d.expected > 0 && Version(s, b, d.task) != d.expected
    case WriteFailed(b) =>
      b in Meant(c, d) && (forall a :: a in Meant(c, d) ==> Agrees(s, c, d, a)) &&
      d.served < CallsNeeded(d, |Meant(c, d)|)
  }

  ghost predicate FirstToDiffer(s: State, c: Config, d: Delivery, b: string)
    requires d.Delivery?
  {
    b in Meant(c, d) && !Agrees(s, c, d, b) && forall a :: a in Meant(c, d) && Less(a, b) ==> Agrees(s, c, d, a)
  }

  lemma {:induction false} FirstObjectionCause(s: State, c: Config, d: Delivery, targets: seq<string>)
    requires d.Delivery? && FirstObjection(s, c, d, targets).Some?
    ensures var reason := FirstObjection(s, c, d, targets).value;
      (reason.UnknownBackend? || reason.VersionConflict?) &&
      exists i :: 0 <= i < |targets| && targets[i] == reason.backend && ObjectsAt(s, c, d, targets, i, reason)
    decreases |targets|
  {
    hide Agrees;
    var reason := FirstObjection(s, c, d, targets).value;
    if targets[0] in c.writers && (d.expected > 0 ==> Version(s, targets[0], d.task) == d.expected) {
      FirstObjectionCause(s, c, d, targets[1..]);
      var i :| 0 <= i < |targets| - 1 && targets[1..][i] == reason.backend &&
        ObjectsAt(s, c, d, targets[1..], i, reason);
      LaterObjection(s, c, d, targets, i, reason);
    } else {
      assert ObjectsAt(s, c, d, targets, 0, reason);
    }
  }

  ghost predicate ObjectsAt(s: State, c: Config, d: Delivery, targets: seq<string>, i: int, reason: Reason)
    requires d.Delivery? && 0 <= i < |targets|
  {
    (forall j :: 0 <= j < i ==> Agrees(s, c, d, targets[j])) &&
    (reason.UnknownBackend? ==> targets[i] !in c.writers) &&
    (reason.VersionConflict? ==>
      targets[i] in c.writers && d.expected > 0 && Version(s, targets[i], d.task) != d.expected)
  }

  lemma LaterObjection(s: State, c: Config, d: Delivery, targets: seq<string>, i: int, reason: Reason)
    requires d.Delivery? && 0 <= i < |targets| - 1 && Agrees(s, c, d, targets[0])
    requires ObjectsAt(s, c, d, targets[1..], i, reason)
    ensures targets[i + 1] == targets[1..][i] && ObjectsAt(s, c, d, targets, i + 1, reason)
  {
    forall j | 0 <= j < i + 1
      ensures Agrees(s, c, d, targets[j])
    {
      if j > 0 {
        assert targets[j] == targets[1..][j - 1];
      }
    }
  }

  lemma ObjectionCause(s: State, c: Config, d: Delivery)
    requires d.Delivery? && Objection(s, c, d).Some?
    ensures IsCause(s, c, d, Objection(s, c, d).value)
  {
    hide FirstObjection, Meant, Targets, Agrees, Less, CallsNeeded;
    TargetsAreMeant(c, d);
    var targets := Targets(c, d);
    if FirstObjection(s, c, d, targets).Some? {
      var reason := FirstObjection(s, c, d, targets).value;
      FirstObjectionCause(s, c, d, targets);
      var i :| 0 <= i < |targets| && targets[i] == reason.backend && ObjectsAt(s, c, d, targets, i, reason);
      FirstIsFirst(s, c, d, targets, i, reason);
    }
    assert targets == [] ==> Meant(c, d) == {};
  }

  lemma FirstIsFirst(s: State, c: Config, d: Delivery, targets: seq<string>, i: int, reason: Reason)
    requires d.Delivery? && Ascending(targets) && 0 <= i < |targets| && ObjectsAt(s, c, d, targets, i, reason)
    requires (forall b :: b in targets <==> b in Meant(c, d)) && (reason.UnknownBackend? || reason.VersionConflict?)
    ensures FirstToDiffer(s, c, d, targets[i])
  {
    hide Less, Meant;
    forall a | a in Meant(c, d) && Less(a, targets[i])
      ensures Agrees(s, c, d, a)
    {
      var j :| 0 <= j < |targets| && targets[j] == a;
      if j >= i {
        LessIrreflexive(a);
        if j > i {
          LessTransitive(a, targets[i], a);
        }
      }
    }
  }

  /** A command is refused for the reason it is told. */
  lemma RefusedForCause(s: State, c: Config, d: Delivery)
    requires Decides(s, c, d) && !Accepts(s, c, d)
    ensures var record := Handle(s, c, d).0.commands[d.id];
      IsCause(s, c, d, record.verdict.reason) && Handle(s, c, d).1 == Refused(record) &&
      record.task == d.task && record.status == d.status && Elements(record.backends) == Elements(d.backends) - {""}
  {
    hide WriteAll, FirstObjection, Objection, Canonical, Meant, Targets, Less, IsCause;
    WritesKeepCommands(s, d, Targets(c, d), d.served);
    if Objection(s, c, d).Some? {
      ObjectionCause(s, c, d);
    } else {
      WriteFailure(s, c, d);
    }
  }

  /** What is not decided leaves no trace. */
  lemma UndecidedChangesNothing(s: State, c: Config, d: Delivery)
    requires !Decides(s, c, d)
    ensures Handle(s, c, d).0 == s
    ensures d.Delivery? && c.writers != {} && d.id !in s.commands ==> d.task == "" && Handle(s, c, d).1 == MissingTask
    ensures c.writers == {} ==> Handle(s, c, d).1 == NotConfigured
    ensures c.writers != {} && d.Unreadable? ==> Handle(s, c, d).1 == Malformed
  {
    hide WriteAll, Objection, Targets;
    if d.Delivery? {
      WritesKeepCommands(s, d, Targets(c, d), d.served);
    }
  }

  lemma WriteFailure(s: State, c: Config, d: Delivery)
    requires d.Delivery? && Objection(s, c, d).None? && WriteAll(s, d, Targets(c, d), d.served).1.Some?
    ensures IsCause(s, c, d, WriteFailed(WriteAll(s, d, Targets(c, d), d.served).1.value))
  {
    hide WriteAll, FirstObjection, Meant, Targets, CallsNeeded;
    TargetsAreMeant(c, d);
    FirstObjectionIs(s, c, d, Targets(c, d));
    WritesFinish(s, d, Targets(c, d), d.served);
    var n := WritesAdvance(s, d, Targets(c, d), d.served);
  }

  // ---- what the backends are told ----

  /** The writes a command stands for: its status, and its comment when there is one, to
      each backend it is for. */
  predicate IsMeantWrite(c: Config, d: Delivery, w: Write) {
    d.Delivery? && w.backend in Meant(c, d) &&
    (w == StatusWrite(w.backend, d.task, d.status) ||
     (d.comment != map[] && w == DataWrite(w.backend, d.task, d.comment)))
  }

  /** The same for the backends of a list. */
  predicate IsWriteTo(targets: seq<string>, d: Delivery, w: Write)
    requires d.Delivery?
  {
    w.backend in targets &&
    (w == StatusWrite(w.backend, d.task, d.status) ||
     (d.comment != map[] && w == DataWrite(w.backend, d.task, d.comment)))
  }

  function Times(log: seq<Write>, w: Write): nat {
    multiset(log)[w]
  }

  /** All the writes to some backends, each once, some of those to others, each at most
      once, and no further ones. */
  ghost predicate WroteOnce(before: seq<Write>, after: seq<Write>, d: Delivery, targets: seq<string>, all: bool)
    requires d.Delivery?
  {
    forall w: Write ::
      Times(before, w) <= Times(after, w) <= Times(before, w) + (if IsWriteTo(targets, d, w) then 1 else 0) &&
      (all ==> Times(after, w) == Times(before, w) + (if IsWriteTo(targets, d, w) then 1 else 0))
  }

  function NextState(s: State, d: Delivery, b: string): State
    requires d.Delivery?
  {
    var told := s.(log := s.log + [StatusWrite(b, d.task, d.status)]);
    Bump(if d.comment == map[] then told else told.(log := told.log + [DataWrite(b, d.task, d.comment)]), b, d.task)
  }

  lemma OneTold(s: State, d: Delivery, b: string)
    requires d.Delivery?
    ensures WroteOnce(s.log, NextState(s, d, b).log, d, [b], true)
    ensures WroteOnce(s.log, s.log + [StatusWrite(b, d.task, d.status)], d, [b], false)
  {
  }

  lemma ToldAfter(before: seq<Write>, middle: seq<Write>, after: seq<Write>, d: Delivery, b: string, rest: seq<string>,
                  all: bool)
    requires d.Delivery? && b !in rest
    requires WroteOnce(before, middle, d, [b], true) && WroteOnce(middle, after, d, rest, all)
    ensures WroteOnce(before, after, d, [b] + rest, all)
  {
    hide Times;
    forall w: Write
      ensures IsWriteTo([b] + rest, d, w) <==> IsWriteTo([b], d, w) || IsWriteTo(rest, d, w)
      ensures !(IsWriteTo([b], d, w) && IsWriteTo(rest, d, w))
    {
    }
  }

  lemma ToldInPart(before: seq<Write>, after: seq<Write>, d: Delivery, b: string, rest: seq<string>)
    requires d.Delivery? && WroteOnce(before, after, d, [b], false)
    ensures WroteOnce(before, after, d, [b] + rest, false)
  {
    hide Times;
    assert forall w :: IsWriteTo([b], d, w) ==> IsWriteTo([b] + rest, d, w);
  }

  lemma {:induction false} WritesTold(s: State, d: Delivery, targets: seq<string>, served: nat)
    requires d.Delivery? && NoRepeats(targets)
    ensures var (after, failed) := WriteAll(s, d, targets, served);
      WroteOnce(s.log, after.log, d, targets, failed.None?)
    decreases |targets|
  {
    hide WroteOnce;
    NothingTold(s.log, d, targets);
    if targets != [] && served > 0 {
      var b, rest := targets[0], targets[1..];
      assert targets == [b] + rest;
      OneTold(s, d, b);
      if served >= CallsNeeded(d, 1) {
        var next := NextState(s, d, b);
        WritesTold(next, d, rest, served - CallsNeeded(d, 1));
        var (after, failed) := WriteAll(s, d, targets, served);
        ToldAfter(s.log, next.log, after.log, d, b, rest, failed.None?);
      } else {
        ToldInPart(s.log, s.log + [StatusWrite(b, d.task, d.status)], d, b, rest);
      }
    }
  }

  lemma NothingTold(log: seq<Write>, d: Delivery, targets: seq<string>)
    requires d.Delivery?
    ensures WroteOnce(log, log, d, targets, targets == [])
  {
  }

  /** Whatever arrives, no backend is told anything but what the command stands for, once;
      and an accepted command has told all of it. */
  lemma OnlyMeantIsTold(s: State, c: Config, d: Delivery, w: Write)
    ensures var before, after := Times(s.log, w), Times(Handle(s, c, d).0.log, w);
      before <= after <= before + (if IsMeantWrite(c, d, w) then 1 else 0) &&
      (Accepts(s, c, d) ==> after == before + (if IsMeantWrite(c, d, w) then 1 else 0))
  {
    hide WriteAll, Objection, Times, Meant, Targets;
    if d.Delivery? {
      TargetsAreMeant(c, d);
      WritesTold(s, d, Targets(c, d), d.served);
      WritesKeepCommands(s, d, Targets(c, d), d.served);
      assert IsMeantWrite(c, d, w) <==> IsWriteTo(Targets(c, d), d, w);
    }
  }

  /** An accepted command raises the versions of its task on exactly the backends it is for. */
  lemma AcceptedAdvancesMeant(s: State, c: Config, d: Delivery)
    requires Accepts(s, c, d)
    ensures Advanced(s, Handle(s, c, d).0, d.task, Meant(c, d))
  {
    hide Handle, Meant, Targets, Advanced;
    TargetsAreMeant(c, d);
    var n := WhatAdvances(s, c, d);
    assert Elements(Targets(c, d)[..n]) == Meant(c, d);
  }

  // ---- any sequence of deliveries ----

  function HandleAll(s: State, c: Config, ds: seq<Delivery>): State
    decreases |ds|
  {
    if ds == [] then s else HandleAll(Handle(s, c, ds[0]).0, c, ds[1..])
  }

  lemma OneDecision(s: State, c: Config, d: Delivery)
    ensures forall id :: id in s.commands ==>
      id in Handle(s, c, d).0.commands && Handle(s, c, d).0.commands[id] == s.commands[id]
    ensures d.Delivery? && c.writers != {} && d.id in s.commands ==> Handle(s, c, d) == (s, Acked(s.commands[d.id]))
  {
    hide WriteAll, FirstObjection, Canonical;
    if d.Delivery? {
      WritesKeepCommands(s, d, Targets(c, d), d.served);
    }
  }

  /** A command is decided at most once: whatever follows, its record stays, and every
      replay is answered from the record and changes nothing. */
  lemma {:induction false} DecidedOnce(s: State, c: Config, ds: seq<Delivery>, id: string, replay: Delivery)
    requires id in s.commands && replay.Delivery? && replay.id == id && c.writers != {}
    ensures var later := HandleAll(s, c, ds);
      id in later.commands && later.commands[id] == s.commands[id] &&
      Handle(later, c, replay) == (later, Acked(s.commands[id]))
    decreases |ds|
  {
    hide Handle;
    if ds == [] {
      OneDecision(s, c, replay);
    } else {
      OneDecision(s, c, ds[0]);
      DecidedOnce(Handle(s, c, ds[0]).0, c, ds[1..], id, replay);
    }
  }

  lemma {:induction false} VersionsNeverFall(s: State, c: Config, ds: seq<Delivery>, b: string, t: string)
    ensures Version(HandleAll(s, c, ds), b, t) >= Version(s, b, t)
    decreases |ds|
  {
    hide Handle, Version, Targets;
    if ds != [] {
      var n := WhatAdvances(s, c, ds[0]);
      VersionsNeverFall(Handle(s, c, ds[0]).0, c, ds[1..], b, t);
    }
  }

  /** Of the commands that expect the same version of the same task on a shared backend,
      at most one is ever accepted. */
  lemma OneWinner(s: State, c: Config, first: Delivery, between: seq<Delivery>, second: Delivery, b: string)
    requires first.Delivery? && second.Delivery? && first.task == second.task
    requires first.expected == second.expected > 0 && b in Meant(c, first) && b in Meant(c, second)
    requires Accepts(s, c, first)
    ensures !Accepts(HandleAll(Handle(s, c, first).0, c, between), c, second)
  {
    hide Handle, Targets, Meant, Version, HandleAll;
    TargetsAreMeant(c, first);
    var next := Handle(s, c, first).0;
    var n := WhatAdvances(s, c, first);
    assert Targets(c, first)[..n] == Targets(c, first);
    AcceptedNeeds(s, c, first);
    VersionsNeverFall(next, c, between, b, first.task);
    var later := HandleAll(next, c, between);
    if Accepts(later, c, second) {
      AcceptedNeeds(later, c, second);
    }
  }

  /** After a failed write the same expected version can no longer win on the backends
      already written: the command cannot be sent again under a new id. */
  lemma PartialWriteConflicts(s: State, c: Config, first: Delivery, failed: string, between: seq<Delivery>,
                              second: Delivery, b: string)
    requires Decides(s, c, first) && Handle(s, c, first).0.commands[first.id].verdict == Rejected(WriteFailed(failed))
    requires b in Meant(c, first) && Less(b, failed)
    requires second.Delivery? && first.task == second.task && first.expected == second.expected > 0 &&
      b in Meant(c, second)
    ensures !Accepts(HandleAll(Handle(s, c, first).0, c, between), c, second)
  {
    hide Handle, Version, HandleAll, Less, Meant;
    TargetsAreMeant(c, first);
    var next := Handle(s, c, first).0;
    var n := WhatAdvances(s, c, first);
    EarlierWritten(Targets(c, first), n, b);
    FailedAfterAgreement(s, c, first);
    VersionsNeverFall(next, c, between, b, first.task);
    var later := HandleAll(next, c, between);
    if Accepts(later, c, second) {
      AcceptedNeeds(later, c, second);
    }
  }

  lemma EarlierWritten(targets: seq<string>, n: nat, b: string)
    requires Ascending(targets) && n < |targets| && b in targets && Less(b, targets[n])
    ensures b in Elements(targets[..n])
  {
    var i :| 0 <= i < |targets| && targets[i] == b;
    if i > n {
      LessTransitive(targets[n], b, targets[n]);
    }
    LessIrreflexive(b);
    LessIrreflexive(targets[n]);
    assert targets[..n][i] == b;
  }

  lemma FailedAfterAgreement(s: State, c: Config, d: Delivery)
    requires FailsToWrite(s, c, d)
    ensures forall b :: b in Meant(c, d) ==>
      b in c.writers && (d.expected > 0 ==> Version(s, b, d.task) == d.expected)
  {
    hide WriteAll, FirstObjection, Canonical, Meant, Targets;
    TargetsAreMeant(c, d);
    FirstObjectionIs(s, c, d, Targets(c, d));
  }

  /** How often a backend was told a status of the task. */
  function StatusWrites(log: seq<Write>, b: string, t: string): nat {
    if log == [] then 0 else
      var last := log[|log| - 1];
      StatusWrites(log[..|log| - 1], b, t) + if last.StatusWrite? && last.backend == b && last.task == t then 1 else 0
  }

  ghost predicate Told(s: State) {
    forall b, t :: Version(s, b, t) <= StatusWrites(s.log, b, t)
  }

  lemma LogGrows(log: seq<Write>, w: Write)
    ensures forall b, t ::
      StatusWrites(log + [w], b, t) ==
        StatusWrites(log, b, t) + if w.StatusWrite? && w.backend == b && w.task == t then 1 else 0
  {
    assert (log + [w])[..|log|] == log;
  }

  lemma {:induction false} WritesTell(s: State, d: Delivery, targets: seq<string>, served: nat)
    requires d.Delivery? && Told(s)
    ensures Told(WriteAll(s, d, targets, served).0)
    decreases |targets|
  {
    if targets != [] && served > 0 {
      var w := StatusWrite(targets[0], d.task, d.status);
      var told := s.(log := s.log + [w]);
      LogGrows(s.log, w);
      var v := DataWrite(targets[0], d.task, d.comment);
      LogGrows(told.log, v);
      if d.comment == map[] {
        WritesTell(Bump(told, targets[0], d.task), d, targets[1..], served - 1);
      } else if served > 1 {
        WritesTell(Bump(told.(log := told.log + [v]), targets[0], d.task), d, targets[1..], served - 2);
      }
    }
  }

  /** No version ever runs ahead of what the backend was told. */
  lemma {:induction false} VersionsWereTold(s: State, c: Config, ds: seq<Delivery>)
    requires Told(s)
    ensures Told(HandleAll(s, c, ds))
    decreases |ds|
  {
    hide WriteAll, Objection;
    if ds != [] {
      if ds[0].Delivery? {
        WritesTell(s, ds[0], Targets(c, ds[0]), ds[0].served);
      }
      VersionsWereTold(Handle(s, c, ds[0]).0, c, ds[1..]);
    }
  }
}
