/** Message framing (section 3.3.3 of RFC 7230) over every run of a request parser, and the conservation of
    identity bodies. */
module Framing {
  import opened Bytes
  import opened ParserTypes
  import opened ParserStep
  import opened ParserInvariant
  import opened ParserRun
  import opened ParserBatches
  import opened ParserProgress
  import opened Delivery

  // ----- A request parser stays one -----

  predicate StaysRequest(o: Outcome) {
    match o
    case Next(q, _) => q.role.Request?
    case Exit(q, _) => q.role.Request?
    case Fail(_, _) => true
  }

  lemma LineStays(p: Parser, ch: char)
    requires p.role.Request?
    ensures StaysRequest(StepRequestLine(p, ch)) && StaysRequest(StepVersion(p, ch))
  {
    hide ParseUrlChar, FirstGuess, SecondGuess, MethodString;
  }

  lemma EndStays(p: Parser, ch: char)
    requires p.role.Request?
    ensures StaysRequest(EndOfHeaders(p, ch)) && StaysRequest(MessageDone(p)) && StaysRequest(HeadersDone(p))
  {
    hide NewMessage;
  }

  lemma FieldStays(p: Parser, ch: char)
    requires p.role.Request?
    ensures StaysRequest(FieldStart(p, ch)) && StaysRequest(FieldByte(p, ch)) && StaysRequest(AfterEmptyLine(p, ch))
  {
    hide EndOfHeaders, FieldScan, FirstFieldState, IsToken, Token, Commit;
    EndStays(p.(state := HeadersAlmostDone), ch);
    EndStays(p.(flags := Commit(p.flags, p.headerState), state := HeaderFieldStart).(state := HeadersAlmostDone), ch);
  }

  lemma ValueStays(p: Parser, ch: char)
    requires p.role.Request?
    ensures StaysRequest(ValueStart(p, ch)) && StaysRequest(ValueByte(p, ch)) && StaysRequest(AfterValueLine(p, ch))
  {
    hide FieldStart, FirstValueState, Lower, ValueLetter, IsHeaderChar, Commit;
    ValueLetterFrame(p, ch);
    FieldStays(p.(flags := Commit(p.flags, p.headerState), state := HeaderFieldStart), ch);
  }

  lemma HeadersStay(p: Parser, ch: char)
    requires p.role.Request?
    ensures StaysRequest(StepHeaders(p, ch))
  {
    hide FieldStart, FieldByte, ValueStart, ValueByte, AfterEmptyLine, AfterValueLine, EndOfHeaders;
    FieldStays(p, ch);
    ValueStays(p, ch);
    EndStays(p, ch);
  }

  lemma BodyStays(p: Parser, ch: char)
    requires p.role.Request?
    ensures StaysRequest(StepBody(p, ch))
  {
    hide MessageDone, IsHex, Unhex;
    EndStays(p.(contentLength := 0), ch);
  }

  lemma DispatchStays(p: Parser, ch: char)
    requires p.role.Request? && !PartOf(p.state).StatusLinePart? && !p.state.StartReqOrRes?
    ensures StaysRequest(Dispatch(p, ch))
  {
    hide StepRequestLine, StepVersion, StepStatusLine, StepHeaders, StepBody, StartEither;
    LineStays(p, ch);
    HeadersStay(p, ch);
    BodyStays(p, ch);
  }

  lemma StepStays(max: nat, p: Parser, ch: char)
    requires Good(max, p) && p.role.Request?
    ensures StaysRequest(Step(max, p, ch))
  {
    hide Good, Step, Dispatch, PartOf;
    RequestNotInStatus(max, p);
    StepIs(max, p, ch);
    DispatchStays(p, ch);
    DispatchStays(p.(nread := p.nread + 1), ch);
  }

  lemma RequestNotInStatus(max: nat, p: Parser)
    requires Good(max, p) && p.role.Request?
    ensures !PartOf(p.state).StatusLinePart? && !p.state.StartReqOrRes?
  {
    if PartOf(p.state).StatusLinePart? { StatusPhase(p.state); }
  }

  // ----- The framing rules -----

  predicate InChunkedBody(s: State) {
    s.ChunkSizeStart? || s.ChunkSize? || s.ChunkParameters? || s.ChunkSizeAlmostDone?
    || s.ChunkData? || s.ChunkDataAlmostDone? || s.ChunkDataDone?
  }

  /** A request is never read to the end of the connection; a chunked body has a Transfer-Encoding and no
      Content-Length; an identity body has a Content-Length and no Transfer-Encoding. */
  predicate Framed(p: Parser) {
    && p.role.Request? && !p.state.BodyIdentityEof?
    && (p.flags.chunked ==> p.usesTE)
    && (InChunkedBody(p.state) ==> p.flags.chunked && p.usesTE && !p.flags.contentLength)
    && (p.state.BodyIdentity? ==> p.flags.contentLength && !p.usesTE && 0 < p.contentLength < ULLONG_MAX)
  }

  lemma GoodIsFramed(max: nat, p: Parser)
    requires Good(max, p) && p.role.Request?
    ensures Framed(p)
  {
    if InChunkedBody(p.state) { assert InChunk(p); }
  }

  lemma {:induction false} RunFramed(max: nat, p: Parser, t: Tape, data: string, i: nat)
    requires i <= |data| && Good(max, p) && p.role.Request?
    ensures
      match RunFrom(max, p, t, data, i)
      case Running(q, _) => Good(max, q) && Framed(q)
      case Exited(_, q, _) => Good(max, q) && Framed(q)
      case Failed(_, _, _) => true
    decreases |data| - i
  {
    hide Step, Good, Framed, ApplyAll;
    if i == |data| {
      GoodIsFramed(max, p);
    } else {
      StepKeeps(max, p, data[i]);
      StepStays(max, p, data[i]);
      var o := Step(max, p, data[i]);
      match o
      case Fail(_, _) =>
      case Exit(q, _) => GoodIsFramed(max, q);
      case Next(q, acts) => RunFramed(max, q, ApplyAll(t, acts, data[i]), data, i + 1);
    }
  }

  /** Body framing after every call on a request connection, for any input in any buffers. */
  lemma {:induction false} RequestsAreFramed(max: nat, p: Parser, log: seq<Event>, bufs: seq<string>)
    requires Good(max, p) && p.role.Request?
    ensures
      match ExecutedAll(max, p, log, bufs)
      case Running(q, _) => Framed(q)
      case Exited(_, q, _) => Framed(q)
      case Failed(_, _, _) => true
    decreases |bufs|
  {
    hide RunFrom, Good, Framed;
    if bufs == [] {
      GoodIsFramed(max, p);
    } else {
      RunFramed(max, p, Entry(p, log), bufs[0], 0);
      var r := Executed(max, p, log, bufs[0]);
      if r.Running? {
        FramedIsRequest(r.parser);
        RequestsAreFramed(max, r.parser, r.tape.log, bufs[1..]);
      }
    }
  }

  lemma FramedIsRequest(p: Parser)
    requires Framed(p)
    ensures p.role.Request?
  {
  }

  // ----- Identity bodies -----

  /** The bytes `s` of the body of a request, in one buffer. */
  lemma BodyOnce(max: nat, p: Parser, log: seq<Event>, s: string)
    requires Good(max, p) && p.state.BodyIdentity? && !p.upgrade && 0 < |s| <= p.contentLength
    ensures
      var c := p.(contentLength := p.contentLength - |s|);
      var u := Tape(log + [Data(Body, s)], true);
      RunFrom(max, p, Tape(log, false), s, 0)
      == if |s| < p.contentLength then Running(c, u)
         else Running(c.(state := NewMessage(c)), Tape(u.log + [MessageComplete], false))
  {
    hide RunFrom, Good, Related, NewMessage;
    var t := Tape(log, false);
    BodyUnopened(p, log);
    GoodCount(max, p);
    IdentityTaken(Watched(max, p, t, s, 0, None), max, p, t, None, s, 0, |s|);
    assert s[0..|s|] == s;
    var c, u := p.(contentLength := p.contentLength - |s|), TakeBody(t, s);
    RunsOut(max, c, u, s);
    RunsOut(max, c.(state := NewMessage(c)), Tape(u.log + [MessageComplete], false), s);
  }

  lemma BodyUnopened(p: Parser, log: seq<Event>)
    requires p.state.BodyIdentity?
    ensures Related(p, Tape(log, false), None) && Entry(p, log) == Tape(log, false) && Resumable(p, log)
  {
  }

  /** What the callbacks over the bytes of a body add up to. */
  lemma BodyDelivered(log: seq<Event>, s: string)
    ensures BodyOf(log + [Data(Body, s)]) == BodyOf(log) + s
    ensures BodyOf(log + [Data(Body, s)] + [MessageComplete]) == BodyOf(log) + s
    ensures Completions(log + [Data(Body, s)]) == Completions(log)
    ensures Completions(log + [Data(Body, s)] + [MessageComplete]) == Completions(log) + 1
  {
    hide BodyOf, Completions;
    BodySnoc(log, Data(Body, s));
    BodySnoc(log + [Data(Body, s)], MessageComplete);
    assert BodyOf(log) + s + "" == BodyOf(log) + s;
  }

  /** The body of a request with `Content-Length`, whatever the buffers: the bytes delivered and the bytes still
      expected always add up; the bytes are delivered in order; and the message is complete exactly when the
      last of them is delivered. */
  lemma BodyConservation(max: nat, p: Parser, log: seq<Event>, bufs: seq<string>)
    requires Good(max, p) && p.state.BodyIdentity? && !p.upgrade
    requires bufs != [] && 0 < |Concat(bufs)| <= p.contentLength
    ensures
      var r, s := ExecutedAll(max, p, log, bufs), Concat(bufs);
      r.Running?
      && BodyOf(r.tape.log) == BodyOf(log) + s
      && |BodyOf(r.tape.log)| + r.parser.contentLength == |BodyOf(log)| + p.contentLength
      && Completions(r.tape.log) == Completions(log) + (if |s| == p.contentLength then 1 else 0)
      && (|s| < p.contentLength ==> r.parser == p.(contentLength := p.contentLength - |s|))
      && (|s| == p.contentLength ==> r.parser == p.(contentLength := 0, state := NewMessage(p.(contentLength := 0))))
  {
    hide RunFrom, Good, Related, NewMessage, BodyOf, Completions, Merge, Entry, Resumable;
    BodyUnopened(p, log);
    SplitInvariance(max, p, log, bufs);
    BodyOnce(max, p, log, Concat(bufs));
    BodyDelivered(log, Concat(bufs));
    MergeKeepsBody(ExecutedAll(max, p, log, bufs).tape.log);
    MergeKeepsBody(Executed(max, p, log, Concat(bufs)).tape.log);
  }
}
