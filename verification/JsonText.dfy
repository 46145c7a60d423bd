/** JSON texts as RFC 8259 writes them (sections 2, 4, 5 and 7), with every choice of
    white space and escaping, and the round trip through the payload reader. */
module JsonText {
  import opened Framing
  import opened Wrappers

  // Section 7: a string is characters and escapes between quotation marks.
  datatype Char = Plain(b: byte) | Escape(b: byte) | Unicode(hex: seq<byte>)

  // Section 2: space, tab, line feed and carriage return.
  type Ws = s: seq<byte> | forall i :: 0 <= i < |s| ==> s[i] in {0x20, 0x09, 0x0A, 0x0D}

  /** A value; arrays and objects carry the white space around each of their parts. */
  datatype Json =
    | Str(chars: seq<Char>)
    | Scalar(text: seq<byte>)
    | Arr(lead: Ws, items: Items)
    | Obj(lead: Ws, members: Members)

  datatype Items = NoItems | Item(before: Ws, value: Json, after: Ws, tail: Items)

  datatype Members =
    | NoMembers
    | Member(before: Ws, key: seq<Char>, afterKey: Ws, beforeValue: Ws, value: Json, after: Ws, tail: Members)

  predicate IsHexDigit(b: byte) {
    0x30 <= b <= 0x39 || 0x41 <= b <= 0x46 || 0x61 <= b <= 0x66
  }

  predicate LegalChar(c: Char) {
    match c
    case Plain(b) => b >= 0x20 && b != QUOTE && b != BACKSLASH
    case Escape(b) => b in {QUOTE, BACKSLASH, 0x2F, 0x62, 0x66, 0x6E, 0x72, 0x74}
    case Unicode(hex) => |hex| == 4 && forall i :: 0 <= i < 4 ==> IsHexDigit(hex[i])
  }

  /** Sections 3 and 6: literals and numbers are words of letters, digits, '+', '-', '.'. */
  predicate IsScalarByte(b: byte) {
    0x30 <= b <= 0x39 || 0x41 <= b <= 0x5A || 0x61 <= b <= 0x7A || b == 0x2B || b == 0x2D || b == 0x2E
  }

  predicate LegalChars(cs: seq<Char>) {
    forall i :: 0 <= i < |cs| ==> LegalChar(cs[i])
  }

  predicate Legal(v: Json) {
    match v
    case Str(cs) => LegalChars(cs)
    case Scalar(text) => text != [] && forall i :: 0 <= i < |text| ==> IsScalarByte(text[i])
    case Arr(_, items) => LegalItems(items)
    case Obj(_, members) => LegalMembers(members)
  }

  predicate LegalItems(items: Items) {
    items.Item? ==> Legal(items.value) && LegalItems(items.tail)
  }

  predicate LegalMembers(members: Members) {
    members.Member? ==> LegalChars(members.key) && Legal(members.value) && LegalMembers(members.tail)
  }

  // ---- printing ----

  function CharText(c: Char): seq<byte> {
    match c
    case Plain(b) => [b]
    case Escape(b) => [BACKSLASH, b]
    case Unicode(hex) => [BACKSLASH, 0x75] + hex
  }

  function CharsText(cs: seq<Char>): seq<byte> {
    if cs == [] then [] else CharText(cs[0]) + CharsText(cs[1..])
  }

  function StringText(cs: seq<Char>): seq<byte> {
    [QUOTE] + CharsText(cs) + [QUOTE]
  }

  function Text(v: Json): seq<byte> {
    match v
    case Str(cs) => StringText(cs)
    case Scalar(text) => text
    case Arr(lead, items) => [OPEN_ARRAY] + lead + ItemsText(items) + [CLOSE_ARRAY]
    case Obj(lead, members) => [OPEN_OBJECT] + lead + MembersText(members) + [CLOSE_OBJECT]
  }

  function ItemsText(items: Items): seq<byte> {
    match items
    case NoItems => []
    case Item(before, value, after, tail) =>
      before + Text(value) + after + (if tail.NoItems? then [] else [COMMA] + ItemsText(tail))
  }

  function MembersText(members: Members): seq<byte> {
    match members
    case NoMembers => []
    case Member(before, key, afterKey, beforeValue, value, after, tail) =>
      before + StringText(key) + afterKey + [COLON] + beforeValue + Text(value) + after +
      (if tail.NoMembers? then [] else [COMMA] + MembersText(tail))
  }

  predicate IsContainer(v: Json) {
    v.Arr? || v.Obj?
  }

  // ---- scanning what was printed ----

  /** A piece of text that leaves the scanner as it found it and ends no payload. */
  ghost predicate Neutral(s: seq<byte>) {
    forall d: int :: d >= 1 ==> Scan(At(d), s) == Some(At(d))
  }

  lemma NeutralConcat(a: seq<byte>, b: seq<byte>)
    requires Neutral(a) && Neutral(b)
    ensures Neutral(a + b)
  {
    forall d: int | d >= 1
      ensures Scan(At(d), a + b) == Some(At(d))
    {
      ScanConcat(At(d), a, b);
    }
  }

  lemma {:induction false} QuietNeutral(s: seq<byte>)
    requires forall i :: 0 <= i < |s| ==> s[i] != QUOTE && !IsOpen(s[i]) && !IsClose(s[i])
    ensures Neutral(s)
  {
    if s != [] {
      QuietNeutral(s[1..]);
    }
  }

  lemma {:induction false} HexNeutral(st: State, hex: seq<byte>)
    requires st.inString && !st.escaped
    requires forall i :: 0 <= i < |hex| ==> IsHexDigit(hex[i])
    ensures Scan(st, hex) == Some(st)
    decreases |hex|
  {
    if hex != [] {
      HexNeutral(st, hex[1..]);
    }
  }

  lemma CharInside(st: State, c: Char)
    requires st.inString && !st.escaped && LegalChar(c)
    ensures Scan(st, CharText(c)) == Some(st)
  {
    match c {
      case Plain(b) =>
        assert Scan(st, [b]) == Scan(st, []);
      case Escape(b) =>
        assert [BACKSLASH, b][1..] == [b];
        assert Scan(st.(escaped := true), [b]) == Scan(st, []);
      case Unicode(hex) =>
        var s := [BACKSLASH, 0x75] + hex;
        assert s[1..] == [0x75] + hex && s[1..][1..] == hex;
        HexNeutral(st, hex);
        assert Scan(st.(escaped := true), s[1..]) == Scan(st, hex);
    }
  }

  lemma {:induction false} CharsInside(st: State, cs: seq<Char>)
    requires st.inString && !st.escaped && LegalChars(cs)
    ensures Scan(st, CharsText(cs)) == Some(st)
    decreases |cs|
  {
    if cs != [] {
      CharInside(st, cs[0]);
      CharsInside(st, cs[1..]);
      ScanConcat(st, CharText(cs[0]), CharsText(cs[1..]));
    }
  }

  lemma StringNeutral(cs: seq<Char>)
    requires LegalChars(cs)
    ensures Neutral(StringText(cs))
  {
    forall d: int | d >= 1
      ensures Scan(At(d), StringText(cs)) == Some(At(d))
    {
      var inside := State(d, true, false);
      assert StringText(cs)[1..] == CharsText(cs) + [QUOTE];
      CharsInside(inside, cs);
      ScanSnoc(inside, CharsText(cs), QUOTE);
    }
  }

  lemma {:induction false} TextNeutral(v: Json)
    requires Legal(v)
    ensures Neutral(Text(v))
    decreases v, 1
  {
    match v {
      case Str(cs) => StringNeutral(cs);
      case Scalar(text) => QuietNeutral(text);
      case _ =>
        forall d: int | d >= 1
          ensures Scan(At(d), Text(v)) == Some(At(d))
        {
          BodyOpens(v, d);
          ScanSnoc(At(d), Body(v), CloseOf(v));
        }
    }
  }

  function Body(v: Json): seq<byte>
    requires IsContainer(v)
  {
    if v.Arr? then [OPEN_ARRAY] + v.lead + ItemsText(v.items) else [OPEN_OBJECT] + v.lead + MembersText(v.members)
  }

  function CloseOf(v: Json): byte {
    if v.Arr? then CLOSE_ARRAY else CLOSE_OBJECT
  }

  function Inner(v: Json): seq<byte>
    requires IsContainer(v)
  {
    if v.Arr? then ItemsText(v.items) else MembersText(v.members)
  }

  lemma InnerNeutral(v: Json)
    requires Legal(v) && IsContainer(v)
    requires Neutral(Inner(v))
    ensures Neutral(v.lead + Inner(v))
  {
    QuietNeutral(v.lead);
    NeutralConcat(v.lead, Inner(v));
  }

  lemma TextIsBody(v: Json)
    requires IsContainer(v)
    ensures Text(v) == Body(v) + [CloseOf(v)]
    ensures Body(v) == [if v.Arr? then OPEN_ARRAY else OPEN_OBJECT] + (v.lead + Inner(v))
  {
    hide ItemsText, MembersText;
  }

  lemma OpenedBy(open: byte, s: seq<byte>, d: int)
    requires IsOpen(open) && Neutral(s) && d >= 0
    ensures Scan(At(d), [open] + s) == Some(At(d + 1))
  {
    assert ([open] + s)[1..] == s;
  }

  /** A container without its last byte stays one bracket deeper than it began. */
  lemma {:induction false} BodyOpens(v: Json, d: int)
    requires Legal(v) && IsContainer(v) && d >= 0
    ensures Text(v) == Body(v) + [CloseOf(v)]
    ensures Scan(At(d), Body(v)) == Some(At(d + 1))
    decreases v, 0
  {
    hide Scan, Text, Body, Neutral;
    if v.Arr? {
      ItemsNeutral(v.items);
    } else {
      MembersNeutral(v.members);
    }
    InnerNeutral(v);
    TextIsBody(v);
    OpenedBy(if v.Arr? then OPEN_ARRAY else OPEN_OBJECT, v.lead + Inner(v), d);
  }

  lemma {:induction false} ItemsNeutral(items: Items)
    requires LegalItems(items)
    ensures Neutral(ItemsText(items))
    decreases items, 0
  {
    if items.NoItems? {
      QuietNeutral([]);
    } else {
      var tail := if items.tail.NoItems? then [] else [COMMA] + ItemsText(items.tail);
      QuietNeutral([]);
      QuietNeutral([COMMA]);
      ItemsNeutral(items.tail);
      NeutralConcat([COMMA], ItemsText(items.tail));
      QuietNeutral(items.before);
      QuietNeutral(items.after);
      TextNeutral(items.value);
      NeutralConcat(items.before, Text(items.value));
      NeutralConcat(items.before + Text(items.value), items.after);
      NeutralConcat(items.before + Text(items.value) + items.after, tail);
    }
  }

  lemma {:induction false} MembersNeutral(members: Members)
    requires LegalMembers(members)
    ensures Neutral(MembersText(members))
    decreases members, 0
  {
    QuietNeutral([]);
    if members.Member? {
      var Member(before, key, afterKey, beforeValue, value, after, tail) := members;
      var rest := if tail.NoMembers? then [] else [COMMA] + MembersText(tail);
      QuietNeutral([COMMA]);
      MembersNeutral(tail);
      NeutralConcat([COMMA], MembersText(tail));
      QuietNeutral(before);
      QuietNeutral(afterKey);
      QuietNeutral([COLON]);
      QuietNeutral(beforeValue);
      QuietNeutral(after);
      StringNeutral(key);
      TextNeutral(value);
      NeutralConcat(before, StringText(key));
      NeutralConcat(before + StringText(key), afterKey);
      NeutralConcat(before + StringText(key) + afterKey, [COLON]);
      NeutralConcat(before + StringText(key) + afterKey + [COLON], beforeValue);
      NeutralConcat(before + StringText(key) + afterKey + [COLON] + beforeValue, Text(value));
      NeutralConcat(before + StringText(key) + afterKey + [COLON] + beforeValue + Text(value), after);
      NeutralConcat(before + StringText(key) + afterKey + [COLON] + beforeValue + Text(value) + after, rest);
    }
  }

  // ---- whole streams ----

  /** Every legal object or array is one frame, and no proper prefix of it is. */
  lemma TextIsFrame(v: Json)
    requires Legal(v) && IsContainer(v)
    ensures IsFrame(Text(v))
  {
    BodyOpens(v, 0);
    assert Text(v)[..|Text(v)| - 1] == Body(v);
  }

  lemma TruncatedNeverCompletes(v: Json, n: nat)
    requires Legal(v) && IsContainer(v) && n < |Text(v)|
    ensures Scan(At(0), Text(v)[..n]).Some?
  {
    hide Text, Body, Scan, Legal;
    BodyOpens(v, 0);
    assert Text(v)[..n] + Body(v)[n..] == Body(v);
    ScanConcat(At(0), Text(v)[..n], Body(v)[n..]);
  }

  /** A frame is where a frame starts: two frames that begin the same input are equal. */
  lemma FrameUnique(s: seq<byte>, m: nat, n: nat)
    requires m <= |s| && n <= |s| && IsFrame(s[..m]) && IsFrame(s[..n])
    ensures m == n
  {
    if m < n {
      FrameNotInside(s, m, n);
    } else if n < m {
      FrameNotInside(s, n, m);
    }
  }

  lemma FrameNotInside(s: seq<byte>, m: nat, n: nat)
    requires m < n <= |s| && IsFrame(s[..m])
    ensures !IsFrame(s[..n])
  {
    var f := s[..m];
    assert f[..m - 1] == s[..m - 1];
    assert s[..m - 1] + [s[m - 1]] + s[m..n - 1] == s[..n][..n - 1];
    ScanSnoc(At(0), s[..m - 1], s[m - 1]);
    ScanConcat(At(0), s[..m - 1] + [s[m - 1]], s[m..n - 1]);
  }

  /** A document of the stream: white space, then one object or array. */
  datatype Doc = Doc(lead: Ws, value: Json)

  predicate LegalDocs(docs: seq<Doc>) {
    forall i :: 0 <= i < |docs| ==> Legal(docs[i].value) && IsContainer(docs[i].value)
  }

  function Stream(docs: seq<Doc>): seq<byte> {
    if docs == [] then [] else docs[0].lead + Text(docs[0].value) + Stream(docs[1..])
  }

  function Texts(docs: seq<Doc>): seq<seq<byte>> {
    if docs == [] then [] else [Text(docs[0].value)] + Texts(docs[1..])
  }

  lemma {:induction false} SkipsLead(lead: Ws, s: seq<byte>)
    requires s == [] || !IsWhitespace(s[0])
    ensures LeadingWhitespace(lead + s) == |lead|
    decreases |lead|
  {
    if lead == [] {
      assert lead + s == s;
    } else {
      assert (lead + s)[1..] == lead[1..] + s;
      SkipsLead(lead[1..], s);
    }
  }

  /** The reader has no choice: an input has one answer. */
  lemma ReadsUnique(rest: seq<byte>, a: ReadResult, b: ReadResult)
    requires Reads(rest, a) && Reads(rest, b)
    ensures a == b
  {
    if a.Frame? {
      FrameAgrees(rest, a.bytes, b);
    } else if b.Frame? {
      FrameAgrees(rest, b.bytes, a);
    }
  }

  lemma FrameAgrees(rest: seq<byte>, f: seq<byte>, r: ReadResult)
    requires Reads(rest, Frame(f)) && Reads(rest, r)
    ensures r == Frame(f)
  {
    var body := rest[LeadingWhitespace(rest)..];
    assert body[..|f|] == f;
    if r.Frame? {
      assert body[..|r.bytes|] == r.bytes;
      FrameUnique(body, |f|, |r.bytes|);
    } else if r.EndOfInput? {
      assert f[..|f| - 1] + [f[|f| - 1]] + body[|f|..] == body;
      ScanSnoc(At(0), f[..|f| - 1], f[|f| - 1]);
      ScanConcat(At(0), f[..|f| - 1] + [f[|f| - 1]], body[|f|..]);
    }
  }

  lemma ReadsDoc(d: Doc, more: seq<byte>)
    requires Legal(d.value) && IsContainer(d.value)
    ensures Reads(d.lead + Text(d.value) + more, Frame(Text(d.value)))
    ensures Consumed(d.lead + Text(d.value) + more, Frame(Text(d.value))) == |d.lead| + |Text(d.value)|
  {
    TextIsFrame(d.value);
    assert d.lead + Text(d.value) + more == d.lead + (Text(d.value) + more);
    SkipsLead(d.lead, Text(d.value) + more);
  }

  /** What may follow the last whole text: white space, then possibly a text cut off. */
  lemma ReadsCutOff(lead: Ws, v: Json, n: nat)
    requires Legal(v) && IsContainer(v) && n < |Text(v)|
    ensures Reads(lead + Text(v)[..n], EndOfInput)
  {
    TruncatedNeverCompletes(v, n);
    SkipsLead(lead, Text(v)[..n]);
    assert (lead + Text(v)[..n])[|lead|..] == Text(v)[..n];
  }

  lemma StreamSplit(docs: seq<Doc>, tail: seq<byte>)
    requires docs != []
    ensures Stream(docs) + tail == docs[0].lead + Text(docs[0].value) + (Stream(docs[1..]) + tail)
  {
  }

  lemma FirstOfStream(docs: seq<Doc>, tail: seq<byte>, frames: seq<seq<byte>>, end: ReadResult)
    requires docs != [] && Legal(docs[0].value) && IsContainer(docs[0].value)
    requires ReadsAll(Stream(docs) + tail, frames, end)
    ensures frames != [] && frames[0] == Text(docs[0].value) && ReadsAll(Stream(docs[1..]) + tail, frames[1..], end)
  {
    StreamSplit(docs, tail);
    FirstDoc(docs[0], Stream(docs[1..]) + tail, Stream(docs) + tail, frames, end);
  }

  lemma TextsCons(docs: seq<Doc>, frames: seq<seq<byte>>)
    requires docs != [] && frames != [] && frames[0] == Text(docs[0].value) && frames[1..] == Texts(docs[1..])
    ensures frames == Texts(docs)
  {
    assert frames == [frames[0]] + frames[1..];
  }

  lemma {:induction false} RoundTripBefore(docs: seq<Doc>, tail: seq<byte>, frames: seq<seq<byte>>, end: ReadResult)
    requires LegalDocs(docs) && Reads(tail, EndOfInput)
    requires ReadsAll(Stream(docs) + tail, frames, end)
    ensures frames == Texts(docs) && end == EndOfInput
    decreases |docs|
  {
    if docs == [] {
      assert Stream(docs) + tail == tail;
      EndsAtOnce(tail, EndOfInput, frames, end);
    } else {
      FirstOfStream(docs, tail, frames, end);
      RoundTripBefore(docs[1..], tail, frames[1..], end);
      TextsCons(docs, frames);
    }
  }

  /** Framing round trip: whatever legal texts are printed one after the other, with any
      white space inside and between them or none, reading returns exactly those texts
      in order; a text cut off at the end is reported as an error, never as a frame. */
  lemma RoundTrip(docs: seq<Doc>, lead: Ws, last: Json, n: nat, frames: seq<seq<byte>>, end: ReadResult)
    requires LegalDocs(docs) && Legal(last) && IsContainer(last) && n < |Text(last)|
    requires ReadsAll(Stream(docs) + (lead + Text(last)[..n]), frames, end)
    ensures frames == Texts(docs) && end == EndOfInput
  {
    ReadsCutOff(lead, last, n);
    RoundTripBefore(docs, lead + Text(last)[..n], frames, end);
  }

  lemma FirstDoc(d: Doc, more: seq<byte>, rest: seq<byte>, frames: seq<seq<byte>>, end: ReadResult)
    requires Legal(d.value) && IsContainer(d.value) && rest == d.lead + Text(d.value) + more
    requires ReadsAll(rest, frames, end)
    ensures frames != [] && frames[0] == Text(d.value) && ReadsAll(more, frames[1..], end)
  {
    var first := if frames == [] then end else Frame(frames[0]);
    ReadsDoc(d, more);
    ReadsUnique(rest, first, Frame(Text(d.value)));
    assert rest[Consumed(rest, first)..] == more;
  }

  lemma EndsAtOnce(rest: seq<byte>, r: ReadResult, frames: seq<seq<byte>>, end: ReadResult)
    requires Reads(rest, r) && !r.Frame? && ReadsAll(rest, frames, end)
    ensures frames == [] && end == r
  {
    ReadsUnique(rest, if frames == [] then end else Frame(frames[0]), r);
  }

  /** The same for a reader run over such a stream: what the session loop collects. */
  method ReadStream(docs: seq<Doc>, lead: Ws, last: Json, n: nat) returns (frames: seq<seq<byte>>, end: ReadResult)
    requires LegalDocs(docs) && Legal(last) && IsContainer(last) && n < |Text(last)|
    ensures frames == Texts(docs) && end == EndOfInput
  {
    var reader := new PayloadReader(Stream(docs) + (lead + Text(last)[..n]));
    assert reader.input[reader.pos..] == reader.input;
    frames, end := ReadAll(reader);
    RoundTrip(docs, lead, last, n, frames, end);
  }

  /** The reader counts brackets and does not match them: it also delivers "[}". */
  lemma NotAValidator()
    ensures Reads([OPEN_ARRAY, CLOSE_OBJECT], Frame([OPEN_ARRAY, CLOSE_OBJECT]))
  {
    assert [OPEN_ARRAY, CLOSE_OBJECT][..1] == [OPEN_ARRAY];
    assert [OPEN_ARRAY][1..] == [];
    assert Scan(At(0), [OPEN_ARRAY]) == Some(At(1));
  }
}
