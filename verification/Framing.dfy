/** Newline-framed messages over a byte stream that arrives in arbitrary chunks. */
module Framing {
  import opened Wrappers
  import opened Types

  const NEWLINE: u8 := 10

  datatype ReadError = ReadFailed | StreamClosed | ParseFailed

  // ----- specification -----

  ghost function Concat(chunks: seq<seq<u8>>): seq<u8> {
    if chunks == [] then [] else chunks[0] + Concat(chunks[1..])
  }

  function FirstNewline(s: seq<u8>): (r: Option<nat>)
    ensures r.Some? ==> r.value < |s| && s[r.value] == NEWLINE && NEWLINE !in s[..r.value]
    ensures r.None? ==> NEWLINE !in s
  {
    if s == [] then None
    else if s[0] == NEWLINE then Some(0)
    else
      match FirstNewline(s[1..])
      case None => assert s == [s[0]] + s[1..]; None
      case Some(i) => assert s[..i + 1] == [s[0]] + s[1..][..i]; Some(i + 1)
  }

  datatype Line = Line(text: seq<u8>, rest: seq<u8>)

  /** The next non-empty line of a stream and what follows it, if the stream has one. */
  function NextLine(s: seq<u8>): (r: Option<Line>)
    ensures r.Some? ==> |r.value.rest| < |s|
    decreases |s|
  {
    match FirstNewline(s)
    case None => None
    case Some(pos) => if pos == 0 then NextLine(s[1..]) else Some(Line(s[..pos], s[pos + 1..]))
  }

  /** Every line the reader would hand out, one read after the other. */
  function ReadLines(s: seq<u8>): seq<seq<u8>>
    decreases |s|
  {
    match NextLine(s)
    case None => []
    case Some(line) => [line.text] + ReadLines(line.rest)
  }

  /** The newline-terminated segments, found by looking at one byte after the other. */
  ghost function Segments(s: seq<u8>, open_: seq<u8>): seq<seq<u8>> {
    if s == [] then []
    else if s[0] == NEWLINE then [open_] + Segments(s[1..], [])
    else Segments(s[1..], open_ + [s[0]])
  }

  ghost function NonEmpty(segments: seq<seq<u8>>): seq<seq<u8>> {
    if segments == [] then []
    else (if segments[0] == [] then [] else [segments[0]]) + NonEmpty(segments[1..])
  }

  /** What is after the last newline. */
  ghost function Unterminated(s: seq<u8>): seq<u8> {
    match FirstNewline(s)
    case None => s
    case Some(pos) => Unterminated(s[pos + 1..])
  }

  // ----- the reader's lines are the stream's non-empty segments -----

  lemma {:induction false} SegmentsUpTo(s: seq<u8>, open_: seq<u8>, pos: nat)
    requires pos <= |s| && NEWLINE !in s[..pos]
    ensures Segments(s, open_) == Segments(s[pos..], open_ + s[..pos])
    decreases pos
  {
    if pos == 0 {
      assert s[0..] == s && open_ + s[..0] == open_;
    } else {
      assert s[..pos] == [s[0]] + s[1..][..pos - 1];
      assert s[0] in s[..pos];
      SegmentsUpTo(s[1..], open_ + [s[0]], pos - 1);
      assert s[1..][pos - 1..] == s[pos..];
      assert open_ + [s[0]] + s[1..][..pos - 1] == open_ + s[..pos];
    }
  }

  /** Reading again and again yields exactly the non-empty terminated segments, in order. */
  lemma {:induction false} ReadLinesAreSegments(s: seq<u8>)
    ensures ReadLines(s) == NonEmpty(Segments(s, []))
    decreases |s|
  {
    match FirstNewline(s)
    case None =>
      assert s[..|s|] == s;
      SegmentsUpTo(s, [], |s|);
    case Some(pos) =>
      SegmentsUpTo(s, [], pos);
      assert [] + s[..pos] == s[..pos];
      assert s[pos..][1..] == s[pos + 1..];
      var after := Segments(s[pos + 1..], []);
      assert Segments(s, []) == [s[..pos]] + after;
      assert ([s[..pos]] + after)[1..] == after;
      ReadLinesAreSegments(s[pos + 1..]);
      if pos == 0 {
        assert s[1..] == s[pos + 1..];
      }
  }

  /** The cut into chunks does not matter: only the bytes do. */
  lemma LinesIgnoreChunks(buf: seq<u8>, chunks: seq<seq<u8>>, buf': seq<u8>, chunks': seq<seq<u8>>)
    requires buf + Concat(chunks) == buf' + Concat(chunks')
    ensures ReadLines(buf + Concat(chunks)) == NonEmpty(Segments(buf' + Concat(chunks'), []))
  {
    ReadLinesAreSegments(buf + Concat(chunks));
  }

  /** Bytes after the last newline are never part of a line. */
  lemma {:induction false} TailIsNeverRead(s: seq<u8>, tail: seq<u8>)
    requires NEWLINE !in tail
    ensures s == [] || s[|s| - 1] == NEWLINE ==> ReadLines(s + tail) == ReadLines(s)
    decreases |s|
  {
    if s == [] {
      assert s + tail == tail;
    } else if s[|s| - 1] == NEWLINE {
      assert s[|s| - 1] in s;
      var pos := FirstNewline(s).value;
      SameFirstNewline(s, tail);
      AppendedSlices(s, tail, pos);
      assert s[pos + 1..] == [] || s[pos + 1..][|s| - pos - 2] == NEWLINE;
      TailIsNeverRead(s[pos + 1..], tail);
      if pos == 0 {
        assert (s + tail)[1..] == s[1..] + tail;
      }
    }
  }

  lemma AppendedSlices(s: seq<u8>, tail: seq<u8>, pos: nat)
    requires pos < |s|
    ensures (s + tail)[..pos] == s[..pos] && (s + tail)[pos + 1..] == s[pos + 1..] + tail
  {
  }

  lemma {:induction false} SameFirstNewline(s: seq<u8>, t: seq<u8>)
    requires NEWLINE in s
    ensures FirstNewline(s + t) == FirstNewline(s)
  {
    if s[0] != NEWLINE {
      assert s == [s[0]] + s[1..];
      assert (s + t)[1..] == s[1..] + t;
      SameFirstNewline(s[1..], t);
    }
  }

  /** A line that was not complete yet is found whole once its bytes have arrived. */
  lemma {:induction false} NextLineGrows(s: seq<u8>, t: seq<u8>)
    requires NextLine(s).Some?
    ensures NextLine(s + t) == Some(Line(NextLine(s).value.text, NextLine(s).value.rest + t))
    decreases |s|
  {
    var pos := FirstNewline(s).value;
    SameFirstNewline(s, t);
    assert (s + t)[..pos] == s[..pos] && (s + t)[pos + 1..] == s[pos + 1..] + t;
    if pos == 0 {
      assert (s + t)[1..] == s[1..] + t;
      NextLineGrows(s[1..], t);
    }
  }

  // ----- the reader (read_json_line) -----

  /** A receiving stream: the chunks still to come, and whether it then fails or ends. */
  class RecvStream {
    var chunks: seq<seq<u8>>
    const fails: bool

    constructor (chunks: seq<seq<u8>>, fails: bool)
      ensures this.chunks == chunks && this.fails == fails
    {
      this.chunks, this.fails := chunks, fails;
    }

    method ReadChunk() returns (r: Result<Option<seq<u8>>, ReadError>)
      modifies this
      ensures old(chunks) != [] ==> r == Ok(Some(old(chunks)[0])) && chunks == old(chunks)[1..]
      ensures old(chunks) == [] ==> chunks == [] && r == if fails then Err(ReadFailed) else Ok(None)
    {
      if chunks != [] {
        r := Ok(Some(chunks[0]));
        chunks := chunks[1..];
      } else if fails {
        r := Err(ReadFailed);
      } else {
        r := Ok(None);
      }
    }
  }

  /** The caller's buffer, holding bytes received but not yet consumed. */
  class LineBuffer {
    var bytes: seq<u8>

    constructor ()
      ensures bytes == []
    {
      bytes := [];
    }
  }

  /** What a read of the stream `all` must return. */
  function ReadOutcome<T>(all: seq<u8>, parse: seq<u8> -> Option<T>, fails: bool): Result<T, ReadError> {
    match NextLine(all)
    case None => Err(if fails then ReadFailed else StreamClosed)
    case Some(line) =>
      match parse(line.text)
      case Some(v) => Ok(v)
      case None => Err(ParseFailed)
  }

  /** What is left for later reads. */
  ghost function ReadRest(all: seq<u8>): seq<u8> {
    match NextLine(all)
    case None => Unterminated(all)
    case Some(line) => line.rest
  }

  /** Dropping an empty line at the front loses nothing the reader would return. */
  lemma SkipsEmptyLine(now: seq<u8>, coming: seq<u8>)
    requires FirstNewline(now) == Some(0)
    ensures SameReading(now + coming, now[1..] + coming)
  {
    SameFirstNewline(now, coming);
    assert (now + coming)[1..] == now[1..] + coming;
    LeadingNewlineIsSkipped(now + coming);
  }

  lemma LeadingNewlineIsSkipped(s: seq<u8>)
    requires FirstNewline(s) == Some(0)
    ensures SameReading(s, s[1..])
  {
  }

  /** The first line of the buffer is the stream's next line, whatever arrives later. */
  lemma TakesFirstLine(now: seq<u8>, coming: seq<u8>)
    requires FirstNewline(now).Some? && FirstNewline(now).value > 0
    ensures var pos := FirstNewline(now).value;
            NextLine(now + coming) == Some(Line(now[..pos], now[pos + 1..] + coming))
  {
    var pos := FirstNewline(now).value;
    SameFirstNewline(now, coming);
    assert (now + coming)[..pos] == now[..pos];
    assert (now + coming)[pos + 1..] == now[pos + 1..] + coming;
  }

  ghost predicate SameReading(s: seq<u8>, t: seq<u8>) {
    NextLine(s) == NextLine(t) && ReadRest(s) == ReadRest(t)
  }

  lemma SameReadingTrans(s: seq<u8>, t: seq<u8>, all: seq<u8>)
    requires SameReading(s, t) && SameReading(s, all)
    ensures SameReading(t, all)
  {
  }

  /** With a first line in the buffer the read is decided. */
  lemma LineDecides<T>(
    now: seq<u8>, coming: seq<u8>, all: seq<u8>, pos: nat, parse: seq<u8> -> Option<T>, fails: bool)
    requires SameReading(now + coming, all) && FirstNewline(now) == Some(pos) && pos > 0
    ensures ReadRest(all) == now[pos + 1..] + coming
    ensures ReadOutcome(all, parse, fails) ==
      match parse(now[..pos]) case Some(v) => Ok(v) case None => Err(ParseFailed)
  {
    TakesFirstLine(now, coming);
  }

  /** Once the stream has ended, a buffer without a newline is all that is left. */
  lemma EndDecides<T>(now: seq<u8>, all: seq<u8>, parse: seq<u8> -> Option<T>, fails: bool)
    requires FirstNewline(now).None? && SameReading(now + Concat([]), all)
    ensures ReadRest(all) == now + Concat([])
    ensures ReadOutcome(all, parse, fails) == Err(if fails then ReadFailed else StreamClosed)
  {
    assert now + Concat([]) == now;
  }

  lemma ChunkArrives(now: seq<u8>, chunks: seq<seq<u8>>)
    requires chunks != []
    ensures now + Concat(chunks) == now + chunks[0] + Concat(chunks[1..])
  {
  }

  lemma {:induction false} NothingUnterminatedIsRead(s: seq<u8>)
    ensures NEWLINE !in Unterminated(s) && ReadLines(Unterminated(s)) == []
    decreases |s|
  {
    if FirstNewline(s).Some? { NothingUnterminatedIsRead(s[FirstNewline(s).value + 1..]); }
  }

  /** A read gives the stream's first non-empty line, parsed, and leaves the others; without one it fails. */
  ghost predicate ReadsFirst<T>(
    all: seq<u8>, parse: seq<u8> -> Option<T>, fails: bool, r: Result<T, ReadError>, rest: seq<u8>)
  {
    var lines := NonEmpty(Segments(all, []));
    && (lines == [] ==> r == Err(if fails then ReadFailed else StreamClosed))
    && (lines != [] ==> r == match parse(lines[0]) case Some(v) => Ok(v) case None => Err(ParseFailed))
    && NonEmpty(Segments(rest, [])) == if lines == [] then [] else lines[1..]
  }

  lemma OutcomeMeaning<T>(all: seq<u8>, parse: seq<u8> -> Option<T>, fails: bool)
    ensures ReadsFirst(all, parse, fails, ReadOutcome(all, parse, fails), ReadRest(all))
  {
    ReadLinesAreSegments(all);
    ReadLinesAreSegments(ReadRest(all));
    NothingUnterminatedIsRead(all);
  }

  ghost function EmptyLines(n: nat): seq<u8> {
    if n == 0 then [] else [NEWLINE] + EmptyLines(n - 1)
  }

  ghost function Consumed(all: seq<u8>): seq<u8> {
    match NextLine(all)
    case Some(line) => line.text + [NEWLINE]
    case None => []
  }

  lemma LineIsConsumed(all: seq<u8>, pos: nat)
    requires FirstNewline(all) == Some(pos) && pos > 0
    ensures Consumed(all) + ReadRest(all) == all
  {
    assert all[..pos] + [NEWLINE] + all[pos + 1..] == all;
  }

  lemma OneMoreEmpty(m: nat, rest: seq<u8>)
    ensures EmptyLines(m + 1) + rest == [NEWLINE] + (EmptyLines(m) + rest)
  {
  }

  /** Nothing but empty lines and the line itself is consumed; what is left without a line has no newline. */
  lemma {:induction false} RestMeaning(all: seq<u8>) returns (n: nat)
    ensures all == EmptyLines(n) + (Consumed(all) + ReadRest(all))
    ensures NextLine(all).None? ==> NEWLINE !in ReadRest(all)
    decreases |all|
  {
    NothingUnterminatedIsRead(all);
    match FirstNewline(all)
    case None =>
      n := 0;
    case Some(pos) =>
      if pos > 0 {
        n := 0;
        LineIsConsumed(all, pos);
      } else {
        LeadingNewlineIsSkipped(all);
        var m := RestMeaning(all[1..]);
        n := m + 1;
        OneMoreEmpty(m, Consumed(all) + ReadRest(all));
      }
  }

  method ReadJsonLine<T>(recv: RecvStream, buf: LineBuffer, parse: seq<u8> -> Option<T>)
    returns (r: Result<T, ReadError>)
    modifies recv, buf
    ensures r == ReadOutcome(old(buf.bytes + Concat(recv.chunks)), parse, recv.fails)
    ensures buf.bytes + Concat(recv.chunks) == ReadRest(old(buf.bytes + Concat(recv.chunks)))
  {
    ghost var all := buf.bytes + Concat(recv.chunks);
    while true
      invariant SameReading(buf.bytes + Concat(recv.chunks), all)
      decreases |recv.chunks|, |buf.bytes|
    {
      ghost var now, chunks := buf.bytes, recv.chunks;
      var newline := FirstNewline(buf.bytes);
      if newline.Some? {
        var line := buf.bytes[..newline.value];
        buf.bytes := buf.bytes[newline.value + 1..];
        if line == [] {
          SkipsEmptyLine(now, Concat(chunks));
          SameReadingTrans(now + Concat(chunks), buf.bytes + Concat(chunks), all);
          continue;
        }
        LineDecides(now, Concat(chunks), all, newline.value, parse, recv.fails);
        var msg := parse(line);
        return if msg.Some? then Ok(msg.value) else Err(ParseFailed);
      }
      var chunk := recv.ReadChunk();
      if chunk.Err? {
        EndDecides(now, all, parse, recv.fails);
        return Err(chunk.error);
      }
      if chunk.value.None? {
        EndDecides(now, all, parse, recv.fails);
        return Err(StreamClosed);
      }
      buf.bytes := buf.bytes + chunk.value.value;
      ChunkArrives(now, chunks);
    }
  }

  function Parsed<T>(lines: seq<seq<u8>>, parse: seq<u8> -> Option<T>): seq<Result<T, ReadError>> {
    if lines == [] then []
    else [match parse(lines[0]) case Some(v) => Ok(v) case None => Err(ParseFailed)] + Parsed(lines[1..], parse)
  }

  lemma ParsedAppend<T>(a: seq<seq<u8>>, line: seq<u8>, parse: seq<u8> -> Option<T>)
    ensures Parsed(a + [line], parse) ==
            Parsed(a, parse) + [match parse(line) case Some(v) => Ok(v) case None => Err(ParseFailed)]
  {
    if a == [] {
      assert a + [line] == [line];
    } else {
      assert (a + [line])[1..] == a[1..] + [line];
      ParsedAppend(a[1..], line, parse);
    }
  }

  lemma OneLineOn(s: seq<u8>, lines: seq<seq<u8>>)
    requires NextLine(s).Some?
    ensures lines + ReadLines(s) == lines + [NextLine(s).value.text] + ReadLines(NextLine(s).value.rest)
  {
  }

  /** Reading to the end of the stream, past lines that do not parse. */
  method ReadToEnd<T>(recv: RecvStream, buf: LineBuffer, parse: seq<u8> -> Option<T>)
    returns (got: seq<Result<T, ReadError>>)
    modifies recv, buf
    ensures got == Parsed(NonEmpty(Segments(old(buf.bytes + Concat(recv.chunks)), [])), parse)
  {
    ghost var all := buf.bytes + Concat(recv.chunks);
    ghost var lines: seq<seq<u8>> := [];
    got := [];
    while true
      invariant got == Parsed(lines, parse)
      invariant ReadLines(all) == lines + ReadLines(buf.bytes + Concat(recv.chunks))
      decreases |buf.bytes + Concat(recv.chunks)|
    {
      ghost var now := buf.bytes + Concat(recv.chunks);
      var r := ReadJsonLine(recv, buf, parse);
      if r == Err(StreamClosed) || r == Err(ReadFailed) {
        assert lines + [] == lines;
        break;
      }
      got := got + [r];
      ParsedAppend(lines, NextLine(now).value.text, parse);
      OneLineOn(now, lines);
      lines := lines + [NextLine(now).value.text];
    }
    ReadLinesAreSegments(all);
  }

  // ----- the writer (write_json_line) and the round trip -----

  class SendStream {
    var sent: seq<u8>

    constructor ()
      ensures sent == []
    {
      sent := [];
    }
  }

  method WriteJsonLine<T>(send: SendStream, msg: T, encode: T -> seq<u8>)
    modifies send
    ensures send.sent == old(send.sent) + Framed([msg], encode)
  {
    var bytes := encode(msg);
    bytes := bytes + [NEWLINE];
    send.sent := send.sent + bytes;
    assert Framed([msg], encode) == encode(msg) + [NEWLINE] + [];
  }

  ghost function Framed<T>(msgs: seq<T>, encode: T -> seq<u8>): seq<u8> {
    if msgs == [] then [] else encode(msgs[0]) + [NEWLINE] + Framed(msgs[1..], encode)
  }

  /** Compact JSON never is empty and escapes control characters, so holds no raw newline. */
  predicate Frameable(text: seq<u8>) {
    text != [] && NEWLINE !in text
  }

  lemma {:induction false} FirstNewlineAfter(text: seq<u8>, rest: seq<u8>)
    requires NEWLINE !in text
    ensures FirstNewline(text + [NEWLINE] + rest) == Some(|text|)
  {
    if text == [] {
      assert text + [NEWLINE] + rest == [NEWLINE] + rest;
    } else {
      assert text == [text[0]] + text[1..];
      assert (text + [NEWLINE] + rest)[1..] == text[1..] + [NEWLINE] + rest;
      FirstNewlineAfter(text[1..], rest);
    }
  }

  /** What was written is read back: the same messages, in order, however the stream was cut. */
  lemma {:induction false} RoundTrip<T>(
    msgs: seq<T>, encode: T -> seq<u8>, parse: seq<u8> -> Option<T>, chunks: seq<seq<u8>>)
    requires forall m :: m in msgs ==> Frameable(encode(m)) && parse(encode(m)) == Some(m)
    requires Concat(chunks) == Framed(msgs, encode)
    ensures Parsed(NonEmpty(Segments(Concat(chunks), [])), parse) ==
            seq(|msgs|, i requires 0 <= i < |msgs| => Ok(msgs[i]))
  {
    ReadLinesAreSegments(Concat(chunks));
    FramedReadsBack(msgs, encode, parse);
  }

  lemma {:induction false} FramedReadsBack<T>(msgs: seq<T>, encode: T -> seq<u8>, parse: seq<u8> -> Option<T>)
    requires forall m :: m in msgs ==> Frameable(encode(m)) && parse(encode(m)) == Some(m)
    ensures Parsed(ReadLines(Framed(msgs, encode)), parse) == seq(|msgs|, i requires 0 <= i < |msgs| => Ok(msgs[i]))
  {
    if msgs != [] {
      var text, rest := encode(msgs[0]), Framed(msgs[1..], encode);
      var s := text + [NEWLINE] + rest;
      assert msgs[0] in msgs;
      FirstNewlineAfter(text, rest);
      assert s[..|text|] == text && s[|text| + 1..] == rest;
      FramedReadsBack(msgs[1..], encode, parse);
    }
  }

  /** The condition on the encoder is exactly what one message needs to come back whole. */
  lemma FrameableIsExact(text: seq<u8>)
    ensures ReadLines(text + [NEWLINE]) == [text] <==> Frameable(text)
  {
    var s := text + [NEWLINE];
    assert s[|text|] == NEWLINE;
    if NEWLINE in text {
      LinesHaveNoNewline(s);
    } else {
      assert s == text + [NEWLINE] + [];
      FirstNewlineAfter(text, []);
      assert s[..|text|] == text && s[|text| + 1..] == [];
    }
  }

  lemma {:induction false} LinesHaveNoNewline(s: seq<u8>)
    ensures forall line :: line in ReadLines(s) ==> Frameable(line)
    decreases |s|
  {
    if NextLine(s).Some? {
      NextLineIsFrameable(s);
      LinesHaveNoNewline(NextLine(s).value.rest);
    }
  }

  lemma {:induction false} NextLineIsFrameable(s: seq<u8>)
    requires NextLine(s).Some?
    ensures Frameable(NextLine(s).value.text)
    decreases |s|
  {
    if FirstNewline(s) == Some(0) {
      NextLineIsFrameable(s[1..]);
    }
  }

  // ----- from the written messages to the read ones -----

  lemma {:induction false} FramedAppend<T>(a: seq<T>, b: seq<T>, encode: T -> seq<u8>)
    ensures Framed(a + b, encode) == Framed(a, encode) + Framed(b, encode)
  {
    if a == [] {
      assert a + b == b;
    } else {
      assert (a + b)[1..] == a[1..] + b;
      FramedAppend(a[1..], b, encode);
    }
  }

  /** Messages written one after the other. */
  method WriteAll<T>(send: SendStream, msgs: seq<T>, encode: T -> seq<u8>)
    modifies send
    ensures send.sent == old(send.sent) + Framed(msgs, encode)
  {
    for i := 0 to |msgs|
      invariant send.sent == old(send.sent) + Framed(msgs[..i], encode)
    {
      WriteJsonLine(send, msgs[i], encode);
      FramedAppend(msgs[..i], [msgs[i]], encode);
      assert msgs[..i + 1] == msgs[..i] + [msgs[i]];
    }
    assert msgs[..|msgs|] == msgs;
  }

  /** Bytes cut into chunks of the given sizes, empty ones included; what is left is the last chunk. */
  function CutUp(s: seq<u8>, sizes: seq<nat>): (chunks: seq<seq<u8>>)
    ensures Concat(chunks) == s
  {
    if sizes == [] then assert [s][1..] == []; [s]
    else
      var n := if sizes[0] <= |s| then sizes[0] else |s|;
      var rest := CutUp(s[n..], sizes[1..]);
      assert ([s[..n]] + rest)[1..] == rest;
      [s[..n]] + rest
  }

  /** Every cut into chunks is one by sizes, up to an empty chunk at the end. */
  lemma {:induction false} EveryCutHasSizes(chunks: seq<seq<u8>>)
    ensures CutUp(Concat(chunks), seq(|chunks|, i requires 0 <= i < |chunks| => |chunks[i]|)) == chunks + [[]]
  {
    if chunks != [] {
      var sizes := seq(|chunks|, i requires 0 <= i < |chunks| => |chunks[i]|);
      var tail := chunks[1..];
      assert sizes[1..] == seq(|tail|, i requires 0 <= i < |tail| => |tail[i]|);
      EveryCutHasSizes(tail);
      var all := Concat(chunks);
      assert all[..|chunks[0]|] == chunks[0] && all[|chunks[0]|..] == Concat(tail);
      assert [chunks[0]] + (tail + [[]]) == chunks + [[]];
    }
  }

  /** What one side writes the other side reads, the same messages in order, however the stream is cut. */
  method Exchange<T>(msgs: seq<T>, encode: T -> seq<u8>, parse: seq<u8> -> Option<T>, sizes: seq<nat>)
    returns (got: seq<Result<T, ReadError>>)
    requires forall m :: m in msgs ==> Frameable(encode(m)) && parse(encode(m)) == Some(m)
    ensures got == seq(|msgs|, i requires 0 <= i < |msgs| => Ok(msgs[i]))
  {
    var send := new SendStream();
    WriteAll(send, msgs, encode);
    var chunks := CutUp(send.sent, sizes);
    var recv := new RecvStream(chunks, false);
    var buf := new LineBuffer();
    RoundTrip(msgs, encode, parse, chunks);
    got := ReadToEnd(recv, buf, parse);
  }
}
