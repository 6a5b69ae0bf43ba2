/** Server-sent events: the server's printer, the client's incremental splitter and block
    parser, and the proof that they undo each other for every way the bytes are cut up. */
module Sse {
  import opened Records
  import opened Stream

  const SEPARATOR := "\n\n"

  // ---------------------------------------------------------------- splitting

  /** A separator starts at position `i`. */
  predicate SepAt(s: string, i: nat) {
    i + 1 < |s| && s[i] == '\n' && s[i + 1] == '\n'
  }

  /** The first separator at or after `from`, or the length of the text. */
  function FirstSep(s: string, from: nat): (i: nat)
    requires from <= |s|
    ensures from <= i <= |s|
    ensures i < |s| ==> SepAt(s, i)
    ensures forall j :: from <= j < i ==> !SepAt(s, j)
    decreases |s| - from
  {
    if from == |s| || SepAt(s, from) then from else FirstSep(s, from + 1)
  }

  /** Splitting on blank lines, left to right; the last part is what follows the last
      separator. */
  function Split(s: string): (parts: seq<string>)
    ensures parts != []
    decreases |s|
  {
    var i := FirstSep(s, 0);
    if i == |s| then [s] else [s[..i]] + Split(s[i + 2..])
  }

  function Join(parts: seq<string>): string
    requires parts != []
  {
    if |parts| == 1 then parts[0] else parts[0] + SEPARATOR + Join(parts[1..])
  }

  /** Splitting loses nothing and leaves no separator in any part. */
  lemma {:induction false} SplitJoins(s: string)
    ensures Join(Split(s)) == s
    ensures forall part, i: nat :: part in Split(s) ==> !SepAt(part, i)
    decreases |s|
  {
    var i := FirstSep(s, 0);
    if i < |s| {
      SplitJoins(s[i + 2..]);
      assert s == s[..i] + SEPARATOR + s[i + 2..];
      forall part, j: nat | part in Split(s) ensures !SepAt(part, j) {
        if part == s[..i] && SepAt(part, j) {
          assert SepAt(s, j);
        }
      }
    } else {
      forall j: nat ensures !SepAt(s, j) {
      }
    }
  }

  lemma FirstSepIs(s: string, i: nat)
    requires SepAt(s, i) && forall j :: 0 <= j < i ==> !SepAt(s, j)
    ensures FirstSep(s, 0) == i
  {
    var k := FirstSep(s, 0);
    assert k >= i;
  }

  /** A separator found stays found when more text arrives. */
  lemma FirstSepStays(a: string, b: string)
    requires FirstSep(a, 0) < |a|
    ensures FirstSep(a + b, 0) == FirstSep(a, 0)
  {
    var i := FirstSep(a, 0);
    forall j | 0 <= j < i ensures !SepAt(a + b, j) {
      assert !SepAt(a, j);
    }
    FirstSepIs(a + b, i);
  }

  function Complete(parts: seq<string>): seq<string>
    requires parts != []
  {
    parts[..|parts| - 1]
  }

  function Rest(parts: seq<string>): string
    requires parts != []
  {
    parts[|parts| - 1]
  }

  /** Splitting what arrived so far, keeping the unfinished part, and going on with the
      next piece gives the same as splitting everything at once, for all strings. */
  lemma {:induction false} SplitIncrementally(a: string, b: string)
    ensures Split(a + b) == Complete(Split(a)) + Split(Rest(Split(a)) + b)
    decreases |a|
  {
    var i := FirstSep(a, 0);
    if i == |a| {
      assert Complete(Split(a)) == [];
    } else {
      FirstSepStays(a, b);
      var first, tail := a[..i], a[i + 2..];
      assert (a + b)[i + 2..] == tail + b && (a + b)[..i] == first;
      SplitIncrementally(tail, b);
      FirstPart(a);
      FirstPart(a + b);
      CompleteFirst(first, Split(tail));
      Regrouped([first], Complete(Split(tail)), Split(Rest(Split(tail)) + b));
    }
  }

  lemma FirstPart(s: string)
    ensures var i := FirstSep(s, 0); i < |s| ==> Split(s) == [s[..i]] + Split(s[i + 2..])
  {
  }

  lemma Regrouped(x: seq<string>, y: seq<string>, z: seq<string>)
    ensures x + (y + z) == (x + y) + z
  {
  }

  lemma CompleteFirst(first: string, parts: seq<string>)
    requires parts != []
    ensures Complete([first] + parts) == [first] + Complete(parts) && Rest([first] + parts) == Rest(parts)
  {
  }

  // ---------------------------------------------------------------- parsing one block

  /** The white space and line terminators that trimming removes. */
  predicate IsBlank(c: char) {
    var n := c as int;
    || 0x09 <= n <= 0x0D || n == 0x20 || n == 0xA0 || n == 0x1680 || 0x2000 <= n <= 0x200A
    || n == 0x2028 || n == 0x2029 || n == 0x202F || n == 0x205F || n == 0x3000 || n == 0xFEFF
  }

  function TrimLeft(s: string): string {
    if s != "" && IsBlank(s[0]) then TrimLeft(s[1..]) else s
  }

  function TrimRight(s: string): string {
    if s != "" && IsBlank(s[|s| - 1]) then TrimRight(s[..|s| - 1]) else s
  }

  function Trim(s: string): string {
    TrimRight(TrimLeft(s))
  }

  function NextLine(s: string, from: nat): (i: nat)
    requires from <= |s|
    ensures from <= i <= |s|
    ensures i < |s| ==> s[i] == '\n'
    ensures forall j :: from <= j < i ==> s[j] != '\n'
    decreases |s| - from
  {
    if from == |s| || s[from] == '\n' then from else NextLine(s, from + 1)
  }

  function Lines(s: string): seq<string>
    decreases |s|
  {
    var i := NextLine(s, 0);
    if i == |s| then [s] else [s[..i]] + Lines(s[i + 1..])
  }

  predicate StartsWith(s: string, prefix: string) {
    prefix <= s
  }

  const DATA := "data: "

  /** The first line that carries data, without its prefix. */
  function FirstData(lines: seq<string>): (r: Option<string>)
    ensures r.Some? ==> exists i :: 0 <= i < |lines| && lines[i] == "data: " + r.value
                          && forall j :: 0 <= j < i ==> !StartsWith(lines[j], "data: ")
    ensures r.None? ==> forall i :: 0 <= i < |lines| ==> !StartsWith(lines[i], "data: ")
  {
    if lines == [] then None
    else if StartsWith(lines[0], DATA) then Some(lines[0][6..])
    else FirstData(lines[1..])
  }

  /** JSON text of an event, and back.  Unreadable text decodes to nothing. */
  datatype Codec = Codec(encode: StreamEvent -> string, decode: string -> Option<StreamEvent>)

  /** JSON objects are written on one line between braces, and can be read back. */
  ghost predicate Lawful(codec: Codec) {
    forall ev :: LawfulFor(codec, ev)
  }

  ghost predicate LawfulFor(codec: Codec, ev: StreamEvent) {
    var text := codec.encode(ev);
    && codec.decode(text) == Some(ev)
    && |text| >= 2 && text[0] == '{' && text[|text| - 1] == '}'
    && '\n' !in text
  }

  function ParseBlock(codec: Codec, block: string): Option<StreamEvent> {
    var trimmed := Trim(block);
    if trimmed == "" || trimmed[0] == ':' then None
    else
      var data := FirstData(Lines(trimmed));
      if data.None? then None else codec.decode(data.value)
  }

  function ParseAll(codec: Codec, blocks: seq<string>): seq<StreamEvent> {
    if blocks == [] then []
    else
      ParseAll(codec, blocks[..|blocks| - 1])
      + var ev := ParseBlock(codec, blocks[|blocks| - 1]); if ev.Some? then [ev.value] else []
  }

  lemma {:induction false} ParseConcat(codec: Codec, a: seq<string>, b: seq<string>)
    ensures ParseAll(codec, a + b) == ParseAll(codec, a) + ParseAll(codec, b)
  {
    if b == [] {
      assert a + b == a;
    } else {
      assert (a + b)[..|a + b| - 1] == a + b[..|b| - 1];
      ParseConcat(codec, a, b[..|b| - 1]);
    }
  }

  function Text(chunks: seq<string>): string {
    if chunks == [] then "" else Text(chunks[..|chunks| - 1]) + chunks[|chunks| - 1]
  }

  /** The client's read loop: keep the unfinished part, hand on what the finished blocks
      hold.  For all chunks, what it hands on is what the whole text holds at once. */
  method RunStream(codec: Codec, chunks: seq<string>) returns (events: seq<StreamEvent>, buffer: string)
    ensures events == ParseAll(codec, Complete(Split(Text(chunks))))
    ensures buffer == Rest(Split(Text(chunks)))
  {
    events, buffer := [], "";
    for i := 0 to |chunks|
      invariant events == ParseAll(codec, Complete(Split(Text(chunks[..i]))))
      invariant buffer == Rest(Split(Text(chunks[..i])))
    {
      ghost var before := Text(chunks[..i]);
      assert chunks[..i + 1][..i] == chunks[..i];
      SplitIncrementally(before, chunks[i]);
      var parts := Split(buffer + chunks[i]);
      buffer := parts[|parts| - 1];
      parts := parts[..|parts| - 1];
      assert Complete(Split(before + chunks[i])) == Complete(Split(before)) + parts;
      ParseConcat(codec, Complete(Split(before)), parts);
      events := HandOn(codec, parts, events);
    }
    assert chunks[..|chunks|] == chunks;
  }

  method HandOn(codec: Codec, blocks: seq<string>, events: seq<StreamEvent>) returns (more: seq<StreamEvent>)
    ensures more == events + ParseAll(codec, blocks)
  {
    more := events;
    for i := 0 to |blocks|
      invariant more == events + ParseAll(codec, blocks[..i])
    {
      assert blocks[..i + 1][..i] == blocks[..i];
      var ev := ParseBlock(codec, blocks[i]);
      if ev.Some? {
        more := more + [ev.value];
      }
    }
    assert blocks[..|blocks|] == blocks;
  }

  // ---------------------------------------------------------------- printing

  function TypeName(body: Body): string {
    match body
    case ExecutionUpdated(_) => "execution_updated"
    case ApprovalAsked(_) => "approval_required"
    case ExecutionEnded(final) =>
      if final.Failed? then "execution_failed"
      else if final.Cancelled? then "execution_cancelled"
      else "execution_completed"
    case TraceEvent(_) => "trace_event"
    case ReplayNotice(_, _) => "replay_created"
    case StepUpdated(_) => "step_updated"
    case ApprovalRecorded(_, _) => "execution_updated"
    case Heartbeat => "heartbeat"
  }

  function Block(codec: Codec, ev: StreamEvent): string {
    if ev.body.Heartbeat? then ": heartbeat"
    else "event: " + TypeName(ev.body) + "\n" + DATA + codec.encode(ev)
  }

  function Format(codec: Codec, ev: StreamEvent): string {
    Block(codec, ev) + SEPARATOR
  }

  function Printer(codec: Codec): StreamEvent -> string {
    ev => Format(codec, ev)
  }

  function Blocker(codec: Codec): StreamEvent -> string {
    ev => Block(codec, ev)
  }

  function Printed(write: StreamEvent -> string, events: seq<StreamEvent>): string {
    if events == [] then "" else Printed(write, events[..|events| - 1]) + write(events[|events| - 1])
  }

  function Each(block: StreamEvent -> string, events: seq<StreamEvent>): seq<string> {
    seq(|events|, i requires 0 <= i < |events| => block(events[i]))
  }

  /** Everything the server writes for a sequence of events. */
  function FormatAll(codec: Codec, events: seq<StreamEvent>): string {
    Printed(Printer(codec), events)
  }

  function Blocks(codec: Codec, events: seq<StreamEvent>): seq<string> {
    Each(Blocker(codec), events)
  }

  /** The text of one event on the wire. */
  lemma FrameText(codec: Codec, ev: StreamEvent)
    ensures Format(codec, ev) ==
      if ev.body.Heartbeat? then ": heartbeat\n\n"
      else
        "event: "
        + (match ev.body
           case ExecutionUpdated(_) => "execution_updated"
           case ApprovalAsked(_) => "approval_required"
           case ExecutionEnded(Failed) => "execution_failed"
           case ExecutionEnded(Cancelled) => "execution_cancelled"
           case ExecutionEnded(_) => "execution_completed"
           case TraceEvent(_) => "trace_event"
           case ReplayNotice(_, _) => "replay_created"
           case StepUpdated(_) => "step_updated"
           case ApprovalRecorded(_, _) => "execution_updated"
           case Heartbeat => "heartbeat")
        + "\n" + "data: " + codec.encode(ev) + "\n\n"
  {
  }

  lemma TypeNameClean(body: Body)
    ensures '\n' !in TypeName(body)
  {
  }

  /** A data event is two lines, the first of which carries no data. */
  lemma BlockLines(codec: Codec, ev: StreamEvent)
    requires LawfulFor(codec, ev) && !ev.body.Heartbeat?
    ensures var head := "event: " + TypeName(ev.body);
      && Block(codec, ev) == head + "\n" + (DATA + codec.encode(ev))
      && '\n' !in head && '\n' !in DATA + codec.encode(ev)
  {
    TypeNameClean(ev.body);
    assert '\n' !in "event: ";
    assert Block(codec, ev) == ("event: " + TypeName(ev.body)) + "\n" + (DATA + codec.encode(ev));
  }

  lemma TwoLines(head: string, data: string)
    requires '\n' !in head && '\n' !in data
    ensures Lines(head + "\n" + data) == [head, data]
  {
    var s := head + "\n" + data;
    assert s[|head|] == '\n';
    assert NextLine(s, 0) == |head| by {
      forall j | 0 <= j < |head| ensures s[j] != '\n' { assert s[j] == head[j]; }
    }
    assert s[..|head|] == head && s[|head| + 1..] == data;
    assert NextLine(data, 0) == |data|;
  }

  lemma NothingToTrim(s: string)
    requires s != "" && !IsBlank(s[0]) && !IsBlank(s[|s| - 1])
    ensures Trim(s) == s
  {
  }

  /** The parser reads back what the printer wrote. */
  lemma ParseFormatted(codec: Codec, ev: StreamEvent)
    requires LawfulFor(codec, ev) && !ev.body.Heartbeat?
    ensures ParseBlock(codec, Block(codec, ev)) == Some(ev)
  {
    var head, data := "event: " + TypeName(ev.body), DATA + codec.encode(ev);
    var block := Block(codec, ev);
    BlockLines(codec, ev);
    assert block[0] == 'e' && block[|block| - 1] == '}';
    NothingToTrim(block);
    TwoLines(head, data);
    assert head[0] == 'e' && DATA[0] == 'd';
    assert FirstData([head, data]) == FirstData([data]);
    assert data[6..] == codec.encode(ev);
  }

  lemma ParseHeartbeat(codec: Codec, ev: StreamEvent)
    requires ev.body.Heartbeat?
    ensures ParseBlock(codec, Block(codec, ev)) == None
  {
    NothingToTrim(": heartbeat");
  }

  /** No blank line within a block, nor one that its end and the separator could form
      earlier than the separator itself. */
  lemma BlockHasNoSep(codec: Codec, ev: StreamEvent, tail: string, j: nat)
    requires LawfulFor(codec, ev) && j < |Block(codec, ev)|
    ensures !SepAt(Block(codec, ev) + SEPARATOR + tail, j)
  {
    var block := Block(codec, ev);
    var s := block + SEPARATOR + tail;
    if ev.body.Heartbeat? {
      assert s[j] == ": heartbeat"[j] && '\n' !in ": heartbeat";
    } else {
      BlockLines(codec, ev);
      var head, data := "event: " + TypeName(ev.body), DATA + codec.encode(ev);
      if j == |head| {
        assert s[j + 1] == data[0] && data[0] == 'd';
      } else if j < |head| {
        assert s[j] == head[j];
      } else {
        assert s[j] == data[j - |head| - 1];
      }
    }
  }

  lemma SplitFormat(codec: Codec, ev: StreamEvent, tail: string)
    requires LawfulFor(codec, ev)
    ensures Split(Format(codec, ev) + tail) == [Block(codec, ev)] + Split(tail)
  {
    var block := Block(codec, ev);
    var s := Format(codec, ev) + tail;
    assert s == block + SEPARATOR + tail;
    forall j | 0 <= j < |block| ensures !SepAt(s, j) {
      BlockHasNoSep(codec, ev, tail, j);
    }
    assert s[|block|] == '\n' && s[|block| + 1] == '\n';
    FirstSepIs(s, |block|);
    assert s[..|block|] == block && s[|block| + 2..] == tail;
  }

  /** Text that ends a block, followed by exactly one more block. */
  lemma SplitMore(text: string, blocks: seq<string>, more: string, block: string)
    requires Split(text) == blocks + [""] && Split(more) == [block] + [""]
    ensures Split(text + more) == blocks + [block] + [""]
  {
    SplitIncrementally(text, more);
    assert Rest(blocks + [""]) == "" && Complete(blocks + [""]) == blocks;
    assert "" + more == more;
    assert blocks + ([block] + [""]) == blocks + [block] + [""];
  }

  lemma SplitOne(codec: Codec, ev: StreamEvent)
    requires LawfulFor(codec, ev)
    ensures Split(Format(codec, ev)) == [Block(codec, ev)] + [""]
  {
    assert Format(codec, ev) + "" == Format(codec, ev);
    SplitFormat(codec, ev, "");
    assert Split("") == [""];
  }

  lemma PrintedMore(write: StreamEvent -> string, block: StreamEvent -> string, init: seq<StreamEvent>, last: StreamEvent)
    ensures Printed(write, init + [last]) == Printed(write, init) + write(last)
    ensures Each(block, init + [last]) == Each(block, init) + [block(last)]
  {
    assert (init + [last])[..|init|] == init;
  }

  /** Whatever prints each event as exactly one block prints events as their blocks. */
  lemma {:induction false} SplitPrinted(write: StreamEvent -> string, block: StreamEvent -> string, events: seq<StreamEvent>)
    requires forall ev :: Split(write(ev)) == [block(ev)] + [""]
    ensures Split(Printed(write, events)) == Each(block, events) + [""]
  {
    if events == [] {
      assert Printed(write, events) == "" && Split("") == [""];
    } else {
      var init, last := events[..|events| - 1], events[|events| - 1];
      assert init + [last] == events;
      SplitPrinted(write, block, init);
      SplitMore(Printed(write, init), Each(block, init), write(last), block(last));
      PrintedMore(write, block, init, last);
    }
  }

  lemma SplitFormatted(codec: Codec, events: seq<StreamEvent>)
    requires Lawful(codec)
    ensures Split(FormatAll(codec, events)) == Blocks(codec, events) + [""]
  {
    forall ev ensures Split(Printer(codec)(ev)) == [Blocker(codec)(ev)] + [""] {
      assert LawfulFor(codec, ev);
      SplitOne(codec, ev);
    }
    SplitPrinted(Printer(codec), Blocker(codec), events);
  }

  lemma {:induction false} ParseBlocks(codec: Codec, events: seq<StreamEvent>)
    requires Lawful(codec)
    ensures ParseAll(codec, Blocks(codec, events)) == WithoutHeartbeats(events)
  {
    if events != [] {
      var init, last := events[..|events| - 1], events[|events| - 1];
      ParseBlocks(codec, init);
      var blocks := Blocks(codec, events);
      assert blocks[..|blocks| - 1] == Blocks(codec, init) && blocks[|blocks| - 1] == Block(codec, last);
      assert LawfulFor(codec, last);
      if last.body.Heartbeat? {
        ParseHeartbeat(codec, last);
      } else {
        ParseFormatted(codec, last);
      }
    }
  }

  /** The round trip.  However the server's text is cut into chunks, the client hands on
      exactly the events that are not heartbeats, in order, and ends with nothing
      unfinished. */
  lemma StreamRoundTrip(codec: Codec, events: seq<StreamEvent>, chunks: seq<string>)
    requires Lawful(codec) && Text(chunks) == FormatAll(codec, events)
    ensures ParseAll(codec, Complete(Split(Text(chunks)))) == WithoutHeartbeats(events)
    ensures Rest(Split(Text(chunks))) == ""
  {
    SplitFormatted(codec, events);
    assert Complete(Blocks(codec, events) + [""]) == Blocks(codec, events);
    ParseBlocks(codec, events);
  }

  /** From poll to screen: whatever the chunks, a client that is sent a whole stream gets
      the numbered events of the polls taken, and folding them gives the last snapshot. */
  lemma PollToScreen(codec: Codec, polls: seq<Poll>, sent: seq<StreamEvent>, chunks: seq<string>)
    requires Lawful(codec) && SentFor(sent, Served(polls)) && Text(chunks) == FormatAll(codec, sent)
    requires Served(polls) != [] && AppendOnly(Served(polls))
    ensures var got := ParseAll(codec, Complete(Split(Text(chunks))));
      && (forall i :: 0 <= i < |got| ==> got[i].sequence == i + 1)
      && LearnAll(NewClient(), BodiesOf(got)) == ClientOf(Served(polls)[|Served(polls)| - 1])
  {
    StreamRoundTrip(codec, sent, chunks);
    Reconstruction(Served(polls));
    NumberedBodies(AllBodies(Served(polls)));
  }

  lemma NumberedBodies(bodies: seq<Body>)
    ensures BodiesOf(Numbered(0, bodies)) == bodies
  {
  }

  function BodiesOf(events: seq<StreamEvent>): seq<Body> {
    seq(|events|, i requires 0 <= i < |events| => events[i].body)
  }
}
