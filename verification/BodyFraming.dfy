/** The body of a request from the header block on: its length is the number in the `Content-Length` line. */
module BodyFraming {
  import opened Bytes
  import opened ParserTypes
  import opened ParserStep
  import opened ParserInvariant
  import opened ParserRun
  import opened ParserProgress
  import opened ParserSegments
  import opened Lengths
  import opened Delivery
  import opened Framing
  import opened HttpRequests
  import opened HeaderLineRuns
  import opened RoundTrip

  /** The record of a request before its first header, other than `CONNECT`. */
  predicate BeforeHeaders(p: Parser) {
    && p.state.HeaderFieldStart? && p.role.Request? && !p.verb.CONNECT? && !p.usesTE
    && !p.flags.trailing && !p.flags.upgrade && !p.flags.chunked && !p.flags.contentLength
  }

  predicate IsLength(h: Header) {
    && h.name != "" && AllTokens(h.name) && FoldAll(h.name) == "content-length"
    && h.value != "" && AllDigits(h.value) && DecValue(h.value) <= MAX_LENGTH
  }

  /** The header lines of the block, without the empty line. */
  function Block(a: seq<Header>, h: Header, b: seq<Header>): string {
    Lines(a) + (HeaderLine(h.name, h.value) + Lines(b))
  }

  lemma BlockRead(max: nat, p: Parser, log: seq<Event>, a: seq<Header>, h: Header, b: seq<Header>)
    returns (q: Parser, log': seq<Event>)
    requires BeforeHeaders(p) && p.nread + |Block(a, h, b)| <= max && IsLength(h)
    requires forall k :: 0 <= k < |a| ==> Ordinary(a[k])
    requires forall k :: 0 <= k < |b| ==> Ordinary(b[k])
    ensures q == p.(nread := p.nread + |Block(a, h, b)|, headerState := q.headerState, index := q.index,
                    contentLength := DecValue(h.value), flags := p.flags.(contentLength := true))
    ensures log' == log + LinesEvents(a) + EventsOf(h) + LinesEvents(b)
    ensures LeadsToLine(max, p, Tape(log, false), Block(a, h, b), q, Tape(log', false))
  {
    hide Ordinary, HeaderLine, RunFrom, LeadsToLine, IsBlank, EventsOf, LinesEvents, Lines, AllTokens, FoldAll,
         AllDigits,
         DecValue;
    var line := HeaderLine(h.name, h.value);
    var p1 := LinesRead(max, p, log, a);
    var t1 := Tape(log + LinesEvents(a), false);
    var p2 := LengthRead(max, p1, t1.log, h);
    var t2 := Tape(t1.log + EventsOf(h), false);
    q := LinesRead(max, p2, t2.log, b);
    log' := t2.log + LinesEvents(b);
    LinesStart(b);
    NameStarts(h.name, h.value);
    StartsWell(line, Lines(b));
    JoinLines(max, p1, t1, line, p2, t2, Lines(b), q, Tape(log', false));
    JoinLines(max, p, Tape(log, false), Lines(a), p1, t1, line + Lines(b), q, Tape(log', false));
  }

  /** The empty line: a body follows, or the message is complete. */
  lemma BlockEnds(max: nat, p: Parser, log: seq<Event>)
    requires BeforeHeaders(p.(flags := p.flags.(contentLength := false))) && p.nread + 2 <= max
    requires p.contentLength <= MAX_LENGTH
    ensures
      var c := p.(nread := 0, upgrade := false, state := BodyIdentity);
      var noted := log + [HeadersComplete(p.verb, p.major, p.minor)];
      if p.contentLength == 0 then
        Leads(max, p, Tape(log, false), "\r\n", c.(state := NewMessage(c)), Tape(noted + [MessageComplete], false))
      else Leads(max, p, Tape(log, false), "\r\n", c, Tape(noted, false))
  {
    hide RunFrom, Step, ApplyAll, NewMessage;
    var t, a := Tape(log, false), p.(nread := p.nread + 1, state := HeadersAlmostDone);
    var e := HeadersComplete(p.verb, p.major, p.minor);
    EmptyLineCR(max, p);
    LeadsQuietly(max, p, t, CR, a);
    BoundsBelowSentinel();
    HeadEnds(max, a);
    var c := a.(nread := 0, upgrade := false);
    assert [CR] + [LF] == "\r\n";
    SameNewMessage(c, BodyIdentity);
    if p.contentLength == 0 {
      TwoNotes(log, e, MessageComplete, LF);
      LeadsByte(max, a, t, LF, c.(state := NewMessage(c)), [Notify(e)] + [Notify(MessageComplete)]);
      Join(max, p, t, [CR], a, t, [LF], c.(state := NewMessage(c)), Tape(log + [e] + [MessageComplete], false));
    } else {
      OneNote(log, e, LF);
      LeadsByte(max, a, t, LF, c.(state := BodyIdentity), [Notify(e)] + []);
      Join(max, p, t, [CR], a, t, [LF], c.(state := BodyIdentity), Tape(log + [e], false));
    }
  }

  lemma SameNewMessage(p: Parser, s: State)
    ensures NewMessage(p.(state := s)) == NewMessage(p)
  {
  }

  lemma {:induction false} LinesHaveNoBody(h: seq<Header>, log: seq<Event>)
    ensures BodyOf(log + LinesEvents(h)) == BodyOf(log) && Completions(log + LinesEvents(h)) == Completions(log)
    decreases |h|
  {
    hide BodyOf, Completions;
    if h == [] {
      assert log + LinesEvents(h) == log;
    } else {
      LineHasNoBody(h[0], log);
      LinesHaveNoBody(h[1..], log + EventsOf(h[0]));
      assert log + EventsOf(h[0]) + LinesEvents(h[1..]) == log + LinesEvents(h);
    }
  }

  lemma LineHasNoBody(h: Header, log: seq<Event>)
    ensures BodyOf(log + EventsOf(h)) == BodyOf(log) && Completions(log + EventsOf(h)) == Completions(log)
  {
    hide BodyOf, Completions;
    var a, b := Data(HeaderFieldData, h.name), Data(HeaderValueData, h.value);
    BodySnoc(log, a);
    BodySnoc(log + [a], b);
    assert log + [a] + [b] == log + EventsOf(h);
    assert BodyOf(log) + "" + "" == BodyOf(log);
  }

  /** Any request with one length line among ordinary header lines, followed by the first bytes `s` of its body, in any
      buffers: exactly these bytes are delivered, the bytes still expected are what is missing to the number in the
      line, and the message is complete exactly when nothing is missing. */
  lemma LengthFramesBody(max: nat, p: Parser, log: seq<Event>, a: seq<Header>, h: Header, b: seq<Header>, s: string,
                         bufs: seq<string>)
    requires BeforeHeaders(p) && IsLength(h)
    requires (forall k :: 0 <= k < |a| ==> Ordinary(a[k])) && (forall k :: 0 <= k < |b| ==> Ordinary(b[k]))
    requires p.nread + |Block(a, h, b)| + 2 <= max && |s| <= DecValue(h.value)
    requires bufs != [] && Concat(bufs) == Block(a, h, b) + ("\r\n" + s)
    ensures
      var r := ExecutedAll(max, p, log, bufs);
      r.Running?
      && BodyOf(r.tape.log) == BodyOf(log) + s
      && Completions(r.tape.log) == Completions(log) + (if |s| == DecValue(h.value) then 1 else 0)
      && (|s| < DecValue(h.value) ==> r.parser.state.BodyIdentity? && r.parser.contentLength + |s| == DecValue(h.value))
      && (|s| == DecValue(h.value) ==> r.parser.state == Dead || r.parser.state == StartReq)
  {
    hide RunFrom, Good, Ordinary, IsLength, Block, BodyOf, Completions, Merge, Entry, LinesEvents, EventsOf, DecValue;
    var u := BlockThenBody(max, p, log, a, h, b, s);
    HeadersResume(p, log);
    SplitInvariance(max, p, log, bufs);
    MergeKeepsBody(ExecutedAll(max, p, log, bufs).tape.log);
    MergeKeepsBody(Executed(max, p, log, Concat(bufs)).tape.log);
  }

  lemma HeadersResume(p: Parser, log: seq<Event>)
    requires p.state.HeaderFieldStart?
    ensures Resumable(p, log) && Entry(p, log) == Tape(log, false)
  {
  }

  lemma LogHasNoBody(log: seq<Event>, a: seq<Header>, h: Header, b: seq<Header>)
    ensures
      var log1 := log + LinesEvents(a) + EventsOf(h) + LinesEvents(b);
      BodyOf(log1) == BodyOf(log) && Completions(log1) == Completions(log)
  {
    hide BodyOf, Completions, LinesEvents, EventsOf;
    LinesHaveNoBody(a, log);
    LineHasNoBody(h, log + LinesEvents(a));
    LinesHaveNoBody(b, log + LinesEvents(a) + EventsOf(h));
  }

  lemma NextIsIdle(p: Parser)
    requires p.role.Request?
    ensures NewMessage(p) == Dead || NewMessage(p) == StartReq
  {
  }

  lemma FramedIsGood(max: nat, p: Parser)
    requires p.state.BodyIdentity? && p.role.Request? && !p.usesTE && p.nread == 0
    requires p.flags.contentLength && !p.flags.chunked && !p.flags.trailing && 0 < p.contentLength <= MAX_LENGTH
    ensures Good(max, p)
  {
    BoundsBelowSentinel();
  }

  /** The same in one buffer. */
  lemma BlockThenBody(max: nat, p: Parser, log: seq<Event>, a: seq<Header>, h: Header, b: seq<Header>, s: string)
    returns (u: Tape)
    requires BeforeHeaders(p) && IsLength(h)
    requires (forall k :: 0 <= k < |a| ==> Ordinary(a[k])) && (forall k :: 0 <= k < |b| ==> Ordinary(b[k]))
    requires p.nread + |Block(a, h, b)| + 2 <= max && |s| <= DecValue(h.value)
    ensures
      var r := RunFrom(max, p, Tape(log, false), Block(a, h, b) + ("\r\n" + s), 0);
      r.Running? && r.tape == u
      && BodyOf(u.log) == BodyOf(log) + s
      && Completions(u.log) == Completions(log) + (if |s| == DecValue(h.value) then 1 else 0)
      && (|s| < DecValue(h.value) ==> r.parser.state.BodyIdentity? && r.parser.contentLength + |s| == DecValue(h.value))
      && (|s| == DecValue(h.value) ==> r.parser.state == Dead || r.parser.state == StartReq)
  {
    hide RunFrom, Good, Ordinary, Block, BodyOf, Completions, LinesEvents, EventsOf, DecValue, NewMessage, LeadsToLine,
         IsBlank, AllTokens, FoldAll, AllDigits;
    var t, w := Tape(log, false), Block(a, h, b);
    var q, log1 := BlockRead(max, p, log, a, h, b);
    NotBlank();
    FollowLine(max, p, t, w, q, Tape(log1, false), "\r\n" + s);
    BlockEnds(max, q, log1);
    LogHasNoBody(log, a, h, b);
    var e := HeadersComplete(q.verb, q.major, q.minor);
    BodySnoc(log1, e);
    BodySnoc(log1 + [e], MessageComplete);
    var c := q.(nread := 0, upgrade := false, state := BodyIdentity);
    var r := RunFrom(max, p, t, w + ("\r\n" + s), 0);
    if DecValue(h.value) == 0 {
      assert "\r\n" + s == "\r\n";
      NextIsIdle(c);
      assert BodyOf(log) + "" + "" == BodyOf(log) + s;
    } else {
      Follow(max, q, Tape(log1, false), "\r\n", c, Tape(log1 + [e], false), s);
      if s == "" {
        RunsOut(max, c, Tape(log1 + [e], false), s);
        assert BodyOf(log) + "" == BodyOf(log) + s;
      } else {
        FramedIsGood(max, c);
        BodyOnce(max, c, log1 + [e], s);
        BodyDelivered(log1 + [e], s);
        NextIsIdle(c.(contentLength := 0));
        assert BodyOf(log) + "" + s == BodyOf(log) + s;
      }
    }
    u := r.tape;
  }
}
