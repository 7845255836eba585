/** The chunked coding of section 4.1 of RFC 7230: encode a list of chunks, run the parser over the text in
    any buffers, and get the chunks back. */
module Chunked {
  import opened Bytes
  import opened ParserTypes
  import opened ParserStep
  import opened ParserRun
  import opened ParserBatches
  import opened ParserProgress
  import opened ParserSegments
  import opened Lengths
  import opened Delivery

  /** A chunk-size line: digits and an optional extension, which the parser reads past. */
  datatype SizeLine = SizeLine(size: string, ext: string) {
    function Text(): string { size + ext + "\r\n" }

    predicate Legal(max: nat, value: nat) {
      && size != "" && AllHex(size) && HexValue(size) == value
      && (ext != "" ==> ext[0] == ';' || ext[0] == ' ')
      && (forall k :: 0 <= k < |ext| ==> ext[k] != CR)
      && |size| + |ext| + 2 <= max
    }
  }

  datatype Chunk = Chunk(line: SizeLine, data: string) {
    function Text(): string { line.Text() + data + "\r\n" }

    predicate Legal(max: nat) { 0 < |data| <= MAX_CHUNK && line.Legal(max, |data|) }

    function Events(): seq<Event> { [ChunkHeader(|data|), Data(Body, data), ChunkComplete] }
  }

  function Encode(chunks: seq<Chunk>): string {
    if chunks == [] then "" else chunks[0].Text() + Encode(chunks[1..])
  }

  function EventsOf(chunks: seq<Chunk>): seq<Event> {
    if chunks == [] then [] else chunks[0].Events() + EventsOf(chunks[1..])
  }

  function DataOf(chunks: seq<Chunk>): string {
    if chunks == [] then "" else chunks[0].data + DataOf(chunks[1..])
  }

  /** The whole body: the chunks, the last chunk of size zero, and an empty trailer. */
  function Message(chunks: seq<Chunk>, last: SizeLine): string {
    Encode(chunks) + (last.Text() + "\r\n")
  }

  // ----- One size line -----

  lemma LineByte(max: nat, p: Parser, ch: char)
    requires (p.state.ChunkSize? || p.state.ChunkParameters?) && p.nread < max
    requires ch == CR || (p.state.ChunkSize? && (ch == ';' || ch == ' ')) || p.state.ChunkParameters?
    ensures Step(max, p, ch) ==
      Next(p.(nread := p.nread + 1, state := if ch == CR then ChunkSizeAlmostDone else ChunkParameters), [])
  {
    hide Step, MessageDone, BodyByte, Unhex;
    BodyStepIs(max, p, ch);
  }

  lemma {:induction false} Parameters(max: nat, p: Parser, t: Tape, s: string)
    requires p.state.ChunkParameters? && p.nread + |s| <= max && forall k :: 0 <= k < |s| ==> s[k] != CR
    ensures Leads(max, p, t, s, p.(nread := p.nread + |s|), t)
    decreases |s|
  {
    hide Step, RunFrom;
    if s == "" {
      LeadsNowhere(max, p, t);
      assert p == p.(nread := p.nread + 0);
    } else {
      var init, last := s[..|s| - 1], s[|s| - 1];
      InitLast(s);
      Parameters(max, p, t, init);
      var q := p.(nread := p.nread + |init|);
      LineByte(max, q, last);
      LeadsQuietly(max, q, t, last, p.(nread := p.nread + |s|));
      Join(max, p, t, init, q, t, [last], p.(nread := p.nread + |s|), t);
    }
  }

  lemma Extension(max: nat, p: Parser, t: Tape, s: string)
    requires p.state.ChunkSize? && p.nread + |s| <= max && s != "" && (s[0] == ';' || s[0] == ' ')
    requires forall k :: 0 <= k < |s| ==> s[k] != CR
    ensures Leads(max, p, t, s, p.(nread := p.nread + |s|, state := ChunkParameters), t)
  {
    hide Step, RunFrom;
    LineByte(max, p, s[0]);
    var q := p.(nread := p.nread + 1, state := ChunkParameters);
    LeadsQuietly(max, p, t, s[0], q);
    Parameters(max, q, t, s[1..]);
    Join(max, p, t, [s[0]], q, t, s[1..], p.(nread := p.nread + |s|, state := ChunkParameters), t);
    assert s == [s[0]] + s[1..];
  }

  lemma LineEnd(max: nat, p: Parser)
    requires p.state.ChunkSizeAlmostDone? && p.nread < max
    ensures Step(max, p, LF) ==
      if p.contentLength == 0 then
        Next(p.(nread := 0, flags := p.flags.(trailing := true), state := HeaderFieldStart), [Notify(ChunkHeader(0))])
      else Next(p.(nread := 0, state := ChunkData), [Notify(ChunkHeader(p.contentLength))])
  {
    hide Step, MessageDone, BodyByte, Unhex;
    BodyStepIs(max, p, LF);
  }

  /** From the start of a size line, any legal line leads to its data, or to the trailer. */
  lemma SizeLineLeads(max: nat, p: Parser, log: seq<Event>, line: SizeLine, value: nat)
    requires p.state.ChunkSizeStart? && p.nread == 0 && line.Legal(max, value) && value <= MAX_CHUNK
    ensures
      var q := if value == 0 then p.(contentLength := 0, flags := p.flags.(trailing := true), state := HeaderFieldStart)
               else p.(contentLength := value, state := ChunkData);
      Leads(max, p, Tape(log, false), line.Text(), q, Tape(log + [ChunkHeader(value)], false))
  {
    hide Step, RunFrom, HexValue;
    var t := Tape(log, false);
    var a := p.(contentLength := value, state := ChunkSize, nread := |line.size|);
    ChunkSizeValue(max, p, t, line.size);
    assert Leads(max, p, t, line.size, a, t);
    var n := |line.size| + |line.ext|;
    var b := a.(nread := n, state := if line.ext == "" then ChunkSize else ChunkParameters);
    if line.ext == "" {
      LeadsNowhere(max, a, t);
    } else {
      Extension(max, a, t, line.ext);
    }
    Join(max, p, t, line.size, a, t, line.ext, b, t);
    LineByte(max, b, CR);
    var c := b.(nread := n + 1, state := ChunkSizeAlmostDone);
    LeadsQuietly(max, b, t, CR, c);
    Join(max, p, t, line.size + line.ext, b, t, [CR], c, t);
    LineEnd(max, c);
    var q := if value == 0 then p.(contentLength := 0, flags := p.flags.(trailing := true), state := HeaderFieldStart)
             else p.(contentLength := value, state := ChunkData);
    LeadsNotify(max, c, t, LF, q, ChunkHeader(value));
    Join(max, p, t, line.size + line.ext + [CR], c, t, [LF], q, Tape(log + [ChunkHeader(value)], false));
    assert line.size + line.ext + [CR] + [LF] == line.Text();
  }

  // ----- One chunk -----

  /** The data of a chunk, cut by no buffer. */
  lemma DataLeads(max: nat, p: Parser, log: seq<Event>, data: string)
    requires p.state.ChunkData? && p.contentLength == |data| && data != ""
    ensures Leads(max, p, Tape(log, false), data, p.(contentLength := 0, state := ChunkDataAlmostDone),
                  Tape(log + [Data(Body, data)], true))
  {
    hide Step;
    var t := Tape(log, false);
    var q := p.(contentLength := 0, state := ChunkDataAlmostDone);
    assert data[0..|data|] == data;
    assert TakeBody(t, data) == Tape(log + [Data(Body, data)], true);
    if |data| == 1 {
      LastChunkByte(max, p, t, data, 0);
    } else {
      BodyRun(max, p, t, data, 0, |data| - 1);
      TakeBodyTwice(t, data, 0, |data| - 1, |data|);
      LastChunkByte(max, p.(contentLength := 1), TakeBody(t, data[0..|data| - 1]), data, |data| - 1);
    }
    RunsOut(max, q, TakeBody(t, data), data);
  }

  lemma DataEnd(max: nat, p: Parser)
    ensures p.state.ChunkDataAlmostDone? ==> Step(max, p, CR) == Next(p.(state := ChunkDataDone), [Flush(Body)])
    ensures p.state.ChunkDataDone? ==>
      Step(max, p, LF) == Next(p.(nread := 0, state := ChunkSizeStart), [Notify(ChunkComplete)])
  {
    hide Step, MessageDone, BodyByte, Unhex;
    if PartOf(p.state).BodyPart? {
      BodyStepIs(max, p, CR);
      BodyStepIs(max, p, LF);
    }
  }

  lemma ChunkLeads(max: nat, p: Parser, log: seq<Event>, c: Chunk)
    requires p.state.ChunkSizeStart? && p.nread == 0 && c.Legal(max)
    ensures Leads(max, p, Tape(log, false), c.Text(), p.(contentLength := 0), Tape(log + c.Events(), false))
  {
    hide Step, RunFrom, ApplyAll;
    var t0, t1 := Tape(log, false), Tape(log + [ChunkHeader(|c.data|)], false);
    var t2 := Tape(t1.log + [Data(Body, c.data)], true);
    var t3 := Tape(t2.log, false);
    var a := p.(contentLength := |c.data|, state := ChunkData);
    SizeLineLeads(max, p, log, c.line, |c.data|);
    DataLeads(max, a, t1.log, c.data);
    var b := a.(contentLength := 0, state := ChunkDataAlmostDone);
    Join(max, p, t0, c.line.Text(), a, t1, c.data, b, t2);
    DataEnd(max, b);
    var d := b.(state := ChunkDataDone);
    ApplyFlush(t2, Body, CR);
    LeadsByte(max, b, t2, CR, d, [Flush(Body)]);
    Join(max, p, t0, c.line.Text() + c.data, b, t2, [CR], d, t3);
    DataEnd(max, d);
    var q := p.(contentLength := 0);
    LeadsNotify(max, d, t3, LF, q, ChunkComplete);
    Join(max, p, t0, c.line.Text() + c.data + [CR], d, t3, [LF], q, Tape(t3.log + [ChunkComplete], false));
    assert c.line.Text() + c.data + [CR] + [LF] == c.Text();
    assert t3.log + [ChunkComplete] == log + c.Events();
  }

  lemma {:induction false} ChunksLead(max: nat, p: Parser, log: seq<Event>, chunks: seq<Chunk>)
    requires p.state.ChunkSizeStart? && p.nread == 0 && forall k :: 0 <= k < |chunks| ==> chunks[k].Legal(max)
    ensures
      var q := if chunks == [] then p else p.(contentLength := 0);
      Leads(max, p, Tape(log, false), Encode(chunks), q, Tape(log + EventsOf(chunks), false))
    decreases |chunks|
  {
    hide RunFrom;
    var t := Tape(log, false);
    if chunks == [] {
      LeadsNowhere(max, p, t);
      assert log + [] == log;
    } else {
      var c, rest := chunks[0], chunks[1..];
      var q, u := p.(contentLength := 0), Tape(log + c.Events(), false);
      ChunkLeads(max, p, log, c);
      ChunksLead(max, q, u.log, rest);
      Join(max, p, t, c.Text(), q, u, Encode(rest), q, Tape(u.log + EventsOf(rest), false));
      assert u.log + EventsOf(rest) == log + EventsOf(chunks);
    }
  }

  // ----- The whole body -----

  lemma TrailerLF(max: nat, p: Parser)
    requires p.state.HeadersAlmostDone? && p.flags.trailing && p.nread < max
    ensures
      var c := p.(nread := p.nread + 1);
      var q := c.(state := NewMessage(c));
      Step(max, p, LF) == if p.upgrade then Exit(q, [Notify(ChunkComplete)] + [Notify(MessageComplete)])
                          else Next(q, [Notify(ChunkComplete)] + [Notify(MessageComplete)])
  {
    hide Step, NewMessage, HeadersDone, FieldStart, FieldByte, ValueStart, ValueByte, AfterEmptyLine, AfterValueLine;
    HeaderStepIs(max, p, LF);
  }

  lemma NewMessageIgnoresState(p: Parser, s: State)
    ensures NewMessage(p.(state := s)) == NewMessage(p)
  {
  }

  /** The record after the last byte of a chunked body. */
  function AfterBody(p: Parser): Parser {
    var c := p.(contentLength := 0, flags := p.flags.(trailing := true), nread := 2);
    c.(state := NewMessage(c))
  }

  /** The round trip in one buffer: the callbacks are the chunks in order, and the message is complete at the
      last byte of the text and not before it. */
  lemma ChunkedRoundTrip(max: nat, p: Parser, log: seq<Event>, chunks: seq<Chunk>, last: SizeLine)
    requires 2 <= max && p.state.ChunkSizeStart? && p.nread == 0
    requires (forall k :: 0 <= k < |chunks| ==> chunks[k].Legal(max)) && last.Legal(max, 0)
    ensures
      var w := Message(chunks, last);
      var events := log + EventsOf(chunks) + [ChunkHeader(0)];
      var done := events + [ChunkComplete, MessageComplete];
      RunFrom(max, p, Tape(log, false), w, 0)
        == (if p.upgrade then Exited(|w|, AfterBody(p), done) else Running(AfterBody(p), Tape(done, false)))
      && RunFrom(max, p, Tape(log, false), w[..|w| - 1], 0)
        == Running(AfterBody(p).(nread := 1, state := HeadersAlmostDone), Tape(events, false))
  {
    hide Step, RunFrom, NewMessage, ApplyAll, Encode, EventsOf;
    var t := Tape(log, false);
    var a := if chunks == [] then p else p.(contentLength := 0);
    var u := Tape(log + EventsOf(chunks), false);
    ChunksLead(max, p, log, chunks);
    var b := p.(contentLength := 0, flags := p.flags.(trailing := true), state := HeaderFieldStart);
    var v := Tape(u.log + [ChunkHeader(0)], false);
    SizeLineLeads(max, a, u.log, last, 0);
    Join(max, p, t, Encode(chunks), a, u, last.Text(), b, v);
    EmptyLineCR(max, b);
    var c := b.(nread := 1, state := HeadersAlmostDone);
    LeadsQuietly(max, b, v, CR, c);
    var front := Encode(chunks) + last.Text() + [CR];
    Join(max, p, t, Encode(chunks) + last.Text(), b, v, [CR], c, v);
    TrailerLF(max, c);
    TwoNotes(v.log, ChunkComplete, MessageComplete, LF);
    var acts := [Notify(ChunkComplete)] + [Notify(MessageComplete)];
    Follow(max, p, t, front, c, v, [LF]);
    NewMessageIgnoresState(p.(contentLength := 0, flags := p.flags.(trailing := true), nread := 2), HeadersAlmostDone);
    if p.upgrade {
      ExitsAt(max, c, v, LF, AfterBody(p), acts);
    } else {
      LeadsByte(max, c, v, LF, AfterBody(p), acts);
    }
    var w := Message(chunks, last);
    assert front + [LF] == w && w[..|w| - 1] == front;
  }

  // ----- Any buffers -----

  lemma {:induction false} ChunkEvents(log: seq<Event>, chunks: seq<Chunk>)
    ensures BodyOf(log + EventsOf(chunks)) == BodyOf(log) + DataOf(chunks)
    ensures Completions(log + EventsOf(chunks)) == Completions(log)
    decreases |chunks|
  {
    hide BodyOf, Completions;
    if chunks == [] {
      assert log + [] == log;
    } else {
      var c := chunks[0];
      var l1 := log + [ChunkHeader(|c.data|)];
      var l2 := l1 + [Data(Body, c.data)];
      var l3 := l2 + [ChunkComplete];
      BodySnoc(log, ChunkHeader(|c.data|));
      BodySnoc(l1, Data(Body, c.data));
      BodySnoc(l2, ChunkComplete);
      ChunkEvents(l3, chunks[1..]);
      assert l3 + EventsOf(chunks[1..]) == log + EventsOf(chunks);
      assert BodyOf(l3) + DataOf(chunks[1..]) == BodyOf(log) + DataOf(chunks);
    }
  }

  lemma ChunkedEvents(log: seq<Event>, chunks: seq<Chunk>)
    ensures
      var done := log + EventsOf(chunks) + [ChunkHeader(0)] + [ChunkComplete, MessageComplete];
      BodyOf(done) == BodyOf(log) + DataOf(chunks) && Completions(done) == Completions(log) + 1
  {
    ChunkEvents(log, chunks);
    var l1 := log + EventsOf(chunks);
    BodySnoc(l1, ChunkHeader(0));
    BodySnoc(l1 + [ChunkHeader(0)], ChunkComplete);
    BodySnoc(l1 + [ChunkHeader(0)] + [ChunkComplete], MessageComplete);
    assert l1 + [ChunkHeader(0)] + [ChunkComplete] + [MessageComplete]
      == l1 + [ChunkHeader(0)] + [ChunkComplete, MessageComplete];
  }

  /** However the text is cut into buffers: the bodies delivered are the chunks' data in order, and exactly one
      message is completed. */
  lemma ChunkedInAnyBuffers(max: nat, p: Parser, log: seq<Event>, chunks: seq<Chunk>, last: SizeLine, bufs: seq<string>)
    requires 2 <= max && p.state.ChunkSizeStart? && p.nread == 0 && !p.upgrade
    requires (forall k :: 0 <= k < |chunks| ==> chunks[k].Legal(max)) && last.Legal(max, 0)
    requires bufs != [] && Concat(bufs) == Message(chunks, last)
    ensures
      var r := ExecutedAll(max, p, log, bufs);
      r.Running? && r.parser == AfterBody(p)
      && BodyOf(r.tape.log) == BodyOf(log) + DataOf(chunks)
      && Completions(r.tape.log) == Completions(log) + 1
  {
    hide RunFrom, NewMessage, Merge, EventsOf, BodyOf, Completions, DataOf, Encode;
    ChunkedRoundTrip(max, p, log, chunks, last);
    SplitInvariance(max, p, log, bufs);
    ChunkedEvents(log, chunks);
    var r := ExecutedAll(max, p, log, bufs);
    MergeKeepsBody(r.tape.log);
    MergeKeepsBody(log + EventsOf(chunks) + [ChunkHeader(0)] + [ChunkComplete, MessageComplete]);
  }
}
