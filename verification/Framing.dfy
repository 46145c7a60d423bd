/** Splitting a byte stream into JSON texts (internal/codex/runner_adapter.go; the same
    loop reads the protocol harness in internal/contracts/protocol_harness.go).  The
    texts are those of RFC 8259: objects and arrays with any legal white space. */
module Framing {
  import opened Wrappers

  newtype byte = b: int | 0 <= b < 256

  const QUOTE: byte := 0x22
  const COMMA: byte := 0x2C
  const COLON: byte := 0x3A
  const OPEN_ARRAY: byte := 0x5B
  const BACKSLASH: byte := 0x5C
  const CLOSE_ARRAY: byte := 0x5D
  const OPEN_OBJECT: byte := 0x7B
  const CLOSE_OBJECT: byte := 0x7D

  predicate IsWhitespace(b: byte) {
    b == 0x20 || b == 0x09 || b == 0x0D || b == 0x0A
  }

  predicate IsOpen(b: byte) {
    b == OPEN_OBJECT || b == OPEN_ARRAY
  }

  predicate IsClose(b: byte) {
    b == CLOSE_OBJECT || b == CLOSE_ARRAY
  }

  // ---- the scanner ----

  datatype State = State(depth: int, inString: bool, escaped: bool)

  /** One byte of a started payload. */
  function Advance(st: State, b: byte): State {
    if st.inString then
      if st.escaped then st.(escaped := false)
      else if b == BACKSLASH then st.(escaped := true)
      else if b == QUOTE then st.(inString := false)
      else st
    else if b == QUOTE then st.(inString := true)
    else if IsOpen(b) then st.(depth := st.depth + 1)
    else if IsClose(b) then st.(depth := st.depth - 1)
    else st
  }

  /** The byte that brings the depth back to zero ends the payload. */
  predicate Completes(st: State, b: byte) {
    !st.inString && IsClose(b) && st.depth == 1
  }

  /** The state after all of s, or None if a byte of s ends the payload. */
  function Scan(st: State, s: seq<byte>): Option<State>
    decreases |s|
  {
    if s == [] then Some(st)
    else if Completes(st, s[0]) then None
    else Scan(Advance(st, s[0]), s[1..])
  }

  function At(depth: int): State {
    State(depth, false, false)
  }

  datatype ReadResult = Frame(bytes: seq<byte>) | EndOfInput | BadPrefix(b: byte)

  function LeadingWhitespace(s: seq<byte>): (n: nat)
    ensures n <= |s|
    ensures forall i :: 0 <= i < n ==> IsWhitespace(s[i])
    ensures n < |s| ==> !IsWhitespace(s[n])
  {
    if s != [] && IsWhitespace(s[0]) then 1 + LeadingWhitespace(s[1..]) else 0
  }

  /** What a frame is: it opens a bracket, and its last byte is the first to close it. */
  predicate IsFrame(f: seq<byte>) {
    |f| > 1 && IsOpen(f[0]) &&
    var before := Scan(At(0), f[..|f| - 1]);
    before.Some? && Completes(before.value, f[|f| - 1])
  }

  /** What one Read of the remaining input answers: the first payload after the white
      space, an error for a payload that is not finished, or a byte that starts none. */
  predicate Reads(rest: seq<byte>, r: ReadResult) {
    var skip := LeadingWhitespace(rest);
    match r
    case Frame(f) => IsFrame(f) && skip + |f| <= |rest| && f == rest[skip..skip + |f|]
    case BadPrefix(b) => skip < |rest| && b == rest[skip] && !IsOpen(b)
    case EndOfInput => skip == |rest| || (IsOpen(rest[skip]) && Scan(At(0), rest[skip..]).Some?)
  }

  /** How much of the input a Read takes: nothing is skipped but white space. */
  function Consumed(rest: seq<byte>, r: ReadResult): (n: nat)
    requires Reads(rest, r)
    ensures n <= |rest|
  {
    var skip := LeadingWhitespace(rest);
    match r
    case Frame(f) => skip + |f|
    case BadPrefix(_) => skip + 1
    case EndOfInput => |rest|
  }

  /** Reading until the first answer that is not a frame. */
  ghost predicate ReadsAll(rest: seq<byte>, frames: seq<seq<byte>>, end: ReadResult)
    decreases |frames|
  {
    if frames == [] then !end.Frame? && Reads(rest, end)
    else Reads(rest, Frame(frames[0])) && ReadsAll(rest[Consumed(rest, Frame(frames[0]))..], frames[1..], end)
  }

  class PayloadReader {
    const input: seq<byte>
    var pos: nat

    ghost predicate Valid()
      reads this
    {
      pos <= |input|
    }

    constructor (input: seq<byte>)
      ensures Valid() && this.input == input && pos == 0
    {
      this.input, pos := input, 0;
    }

    /** A frame is exactly the next bracketed payload after white space; an unfinished
        payload is an error and never handed out; nothing is skipped but white space. */
    method Read() returns (r: ReadResult)
      requires Valid()
      modifies this
      ensures Valid()
      ensures Reads(input[old(pos)..], r)
      ensures pos == old(pos) + Consumed(input[old(pos)..], r)
    {
      hide LeadingWhitespace;
      var payload: seq<byte> := [];
      var depth, inString, escaped, started := 0, false, false, false;
      ghost var rest := input[pos..];
      ghost var skip := LeadingWhitespace(rest);
      ghost var from := pos;
      while true
        invariant Valid() && from <= pos && rest == input[from..]
        invariant !started ==> payload == [] && depth == 0 && !inString && !escaped && pos - from <= skip
        invariant started ==> skip < |rest| && IsOpen(rest[skip]) && pos - from == skip + |payload| && |payload| > 0
        invariant started ==> payload == rest[skip..pos - from]
        invariant started ==> Scan(At(0), payload) == Some(State(depth, inString, escaped))
        decreases |input| - pos
      {
        if pos == |input| {
          assert started ==> rest[skip..pos - from] == rest[skip..];
          return EndOfInput;
        }
        var b := input[pos];
        assert b == rest[pos - from];
        pos := pos + 1;
        if !started {
          if IsWhitespace(b) {
            continue;
          }
          assert pos - 1 - from == skip;
          if !IsOpen(b) {
            return BadPrefix(b);
          }
          started := true;
        }
        ghost var before, st := payload, State(depth, inString, escaped);
        ScanSnoc(At(0), before, b);
        payload := payload + [b];
        SliceGrows(rest, skip, pos - 1 - from, before);
        if inString {
          if escaped {
            escaped := false;
          } else if b == BACKSLASH {
            escaped := true;
          } else if b == QUOTE {
            inString := false;
          }
        } else if b == QUOTE {
          inString := true;
        } else if IsOpen(b) {
          depth := depth + 1;
        } else if IsClose(b) {
          depth := depth - 1;
          if depth == 0 {
            assert payload[0] == rest[skip];
            return Frame(payload);
          }
        }
      }
    }
  }

  lemma SliceGrows(s: seq<byte>, i: nat, j: nat, part: seq<byte>)
    requires i <= j < |s| && part == s[i..j]
    ensures part + [s[j]] == s[i..j + 1]
  {
  }

  /** The loop of a session: read until the reader stops delivering. */
  method ReadAll(reader: PayloadReader) returns (frames: seq<seq<byte>>, end: ReadResult)
    requires reader.Valid()
    modifies reader
    ensures ReadsAll(old(reader.input[reader.pos..]), frames, end)
  {
    frames := [];
    ghost var start := reader.input[reader.pos..];
    while true
      invariant reader.Valid()
      invariant Continues(start, frames, reader.input[reader.pos..])
      decreases |reader.input| - reader.pos
    {
      ghost var rest := reader.input[reader.pos..];
      end := reader.Read();
      if !end.Frame? {
        LastRead(start, frames, rest, end);
        return;
      }
      NextRead(start, frames, rest, end.bytes);
      assert rest[Consumed(rest, end)..] == reader.input[reader.pos..];
      frames := frames + [end.bytes];
    }
  }

  /** After these frames the reader stands before rest. */
  ghost predicate Continues(start: seq<byte>, frames: seq<seq<byte>>, rest: seq<byte>)
    decreases |frames|
  {
    if frames == [] then rest == start
    else Reads(start, Frame(frames[0])) && Continues(start[Consumed(start, Frame(frames[0]))..], frames[1..], rest)
  }

  lemma {:induction false} LastRead(start: seq<byte>, frames: seq<seq<byte>>, rest: seq<byte>, end: ReadResult)
    requires Continues(start, frames, rest) && Reads(rest, end) && !end.Frame?
    ensures ReadsAll(start, frames, end)
    decreases |frames|
  {
    if frames != [] {
      LastRead(start[Consumed(start, Frame(frames[0]))..], frames[1..], rest, end);
    }
  }

  lemma {:induction false} NextRead(start: seq<byte>, frames: seq<seq<byte>>, rest: seq<byte>, f: seq<byte>)
    requires Continues(start, frames, rest) && Reads(rest, Frame(f))
    ensures Continues(start, frames + [f], rest[Consumed(rest, Frame(f))..])
    decreases |frames|
  {
    if frames != [] {
      NextRead(start[Consumed(start, Frame(frames[0]))..], frames[1..], rest, f);
      assert (frames + [f])[1..] == frames[1..] + [f];
    } else {
      assert (frames + [f])[1..] == [];
    }
  }

  lemma {:induction false} ScanConcat(st: State, a: seq<byte>, b: seq<byte>)
    ensures Scan(st, a + b) == if Scan(st, a).None? then None else Scan(Scan(st, a).value, b)
    decreases |a|
  {
    if a == [] {
      assert a + b == b;
    } else {
      assert (a + b)[1..] == a[1..] + b;
      if !Completes(st, a[0]) {
        ScanConcat(Advance(st, a[0]), a[1..], b);
      }
    }
  }

  lemma ScanSnoc(st: State, a: seq<byte>, b: byte)
    requires Scan(st, a).Some?
    ensures Scan(st, a + [b]) == if Completes(Scan(st, a).value, b) then None else Some(Advance(Scan(st, a).value, b))
  {
    ScanConcat(st, a, [b]);
    assert [b][1..] == [];
  }
}
