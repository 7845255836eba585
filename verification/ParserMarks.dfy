/** Which run of bytes is open between two bytes, and that every step opens, extends and closes
    runs in a proper order: at most one mark is live at any time. */
module ParserMarks {
  import opened Bytes
  import opened ParserTypes
  import opened ParserStep
  import opened ParserInvariant

  /** The mark that `http_parser_execute` sets at the start of a buffer. */
  function Live(s: State): Option<Kind> {
    match s
    case HeaderField => Some(HeaderFieldData)
    case HeaderValue => Some(HeaderValueData)
    case ReqSchema | ReqSchemaSlash | ReqSchemaSlashSlash | ReqServerStart | ReqServer | ReqServerWithAt
       | ReqPath | ReqQueryStringStart | ReqQueryString | ReqFragmentStart | ReqFragment => Some(Url)
    case ResStatus => Some(Status)
    case _ => None
  }

  /** In the body states the run may be open or not: a buffer that starts there starts without one. */
  predicate MayBeInBody(s: State) {
    s.ChunkData? || s.ChunkDataAlmostDone? || s.BodyIdentity? || s.BodyIdentityEof?
  }

  predicate LiveOk(s: State, live: Option<Kind>) {
    live == Live(s) || (MayBeInBody(s) && live == Some(Body))
  }

  /** The actions of one byte fit the open run `live`: one run at a time, notifications only between
      runs, the byte is taken at most once, and a run left open has taken it. */
  predicate Proper(live: Option<Kind>, taken: bool, acts: seq<Action>)
    decreases |acts|
  {
    if acts == [] then live.Some? ==> taken
    else match acts[0]
      case Mark(k) => (live.None? || live == Some(k)) && !taken && Proper(Some(k), false, acts[1..])
      case Take(k) => live == Some(k) && !taken && Proper(live, true, acts[1..])
      case Flush(k) => (live.None? || live == Some(k)) && Proper(None, taken, acts[1..])
      case Notify(e) => live.None? && !e.Data? && Proper(None, taken, acts[1..])
  }

  /** The run left open by the actions. */
  function After(live: Option<Kind>, acts: seq<Action>): Option<Kind>
    decreases |acts|
  {
    if acts == [] then live
    else match acts[0]
      case Mark(k) => After(Some(k), acts[1..])
      case Take(_) => After(live, acts[1..])
      case Flush(_) => After(None, acts[1..])
      case Notify(_) => After(live, acts[1..])
  }

  predicate ActsOk(live: Option<Kind>, o: Outcome) {
    match o
    case Next(q, acts) => Proper(live, false, acts) && LiveOk(q.state, After(live, acts))
    case Exit(q, acts) => Proper(live, false, acts) && After(live, acts).None? && Live(q.state).None?
    case Fail(_, acts) => acts == [] || Proper(live, false, acts)
  }

  // ----- The shapes of action lists that occur -----

  lemma NoAction(live: Option<Kind>)
    ensures Proper(None, false, []) && After(live, []) == live
  {
  }

  lemma Note(e: Event, rest: seq<Action>, taken: bool)
    requires !e.Data? && Proper(None, taken, rest)
    ensures Proper(None, taken, [Notify(e)] + rest) && After(None, [Notify(e)] + rest) == After(None, rest)
  {
    assert ([Notify(e)] + rest)[1..] == rest;
  }

  lemma OpenRun(k: Kind, live: Option<Kind>)
    requires live.None? || live == Some(k)
    ensures Proper(live, false, [Mark(k), Take(k)]) && After(live, [Mark(k), Take(k)]) == Some(k)
  {
    assert [Mark(k), Take(k)][1..] == [Take(k)];
    assert [Take(k)][1..] == [];
    assert Proper(Some(k), true, []);
    assert Proper(Some(k), false, [Take(k)]);
    assert After(Some(k), [Take(k)]) == Some(k);
  }

  lemma ExtendRun(k: Kind)
    ensures Proper(Some(k), false, [Take(k)]) && After(Some(k), [Take(k)]) == Some(k)
  {
    assert [Take(k)][1..] == [];
    assert Proper(Some(k), true, []);
  }

  lemma CloseRun(k: Kind, live: Option<Kind>)
    requires live.None? || live == Some(k)
    ensures Proper(live, false, [Flush(k)]) && After(live, [Flush(k)]) == None
  {
    assert [Flush(k)][1..] == [];
    assert Proper(None, false, []);
  }

  lemma EmptyRun(k: Kind, rest: seq<Action>)
    requires Proper(None, false, rest)
    ensures Proper(None, false, [Mark(k), Flush(k)] + rest)
    ensures After(None, [Mark(k), Flush(k)] + rest) == After(None, rest)
  {
    var acts := [Mark(k), Flush(k)] + rest;
    assert acts[1..] == [Flush(k)] + rest;
    assert ([Flush(k)] + rest)[1..] == rest;
    assert Proper(Some(k), false, [Flush(k)] + rest);
  }

  lemma WholeRun(k: Kind, live: Option<Kind>, e: Event)
    requires !e.Data? && (live.None? || live == Some(k))
    ensures Proper(live, false, [Mark(k), Take(k), Flush(k)] + [Notify(e)])
    ensures After(live, [Mark(k), Take(k), Flush(k)] + [Notify(e)]) == None
  {
    var acts := [Mark(k), Take(k), Flush(k)] + [Notify(e)];
    assert acts[1..] == [Take(k), Flush(k), Notify(e)];
    assert [Take(k), Flush(k), Notify(e)][1..] == [Flush(k), Notify(e)];
    assert [Flush(k), Notify(e)][1..] == [Notify(e)];
    assert [Notify(e)][1..] == [];
    assert Proper(None, true, [Notify(e)]) && After(None, [Notify(e)]) == None;
    assert Proper(Some(k), true, [Flush(k), Notify(e)]) && After(Some(k), [Flush(k), Notify(e)]) == None;
    assert Proper(Some(k), false, [Take(k), Flush(k), Notify(e)]);
  }

  // ----- Every step is proper -----

  lemma UrlByteActs(p: Parser, ch: char, first: bool)
    requires first || Live(p.state) == Some(Url)
    ensures ActsOk(if first then None else Some(Url), UrlByte(p, ch, first))
  {
    UrlLive(p.state, ch);
    hide ParseUrlChar, Live, Proper, After;
    OpenRun(Url, None);
    ExtendRun(Url);
  }

  lemma UrlLive(s: State, ch: char)
    ensures ParseUrlChar(s, ch).Dead? || Live(ParseUrlChar(s, ch)) == Some(Url)
  {
  }

  lemma EndOfUrlActs(p: Parser, ch: char)
    requires Live(p.state) == Some(Url)
    ensures ActsOk(Some(Url), EndOfUrl(p, ch))
  {
    hide UrlByte, Proper, After;
    UrlByteActs(p, ch, false);
    CloseRun(Url, Some(Url));
  }

  lemma RequestLive(s: State)
    requires PartOf(s).RequestLinePart?
    ensures Live(s) == if s.StartReq? || s.ReqMethod? || s.ReqSpacesBeforeUrl? then None else Some(Url)
  {
  }

  lemma RequestLineActs(p: Parser, ch: char)
    requires PartOf(p.state).RequestLinePart?
    ensures ActsOk(Live(p.state), StepRequestLine(p, ch))
  {
    RequestLive(p.state);
    hide PartOf, UrlByte, EndOfUrl, Proper, After, FirstGuess, SecondGuess, MethodString;
    if p.state.StartReq? || p.state.ReqMethod? {
      NoAction(None);
      FirstNote(MessageBegin);
    } else if p.state.ReqSpacesBeforeUrl? {
      NoAction(None);
      UrlByteActs(p, ch, true);
      UrlByteActs(p.(state := ReqServerStart), ch, true);
    } else {
      hide StartRequest, ReadMethod;
      UrlByteActs(p, ch, false);
      EndOfUrlActs(p, ch);
    }
  }

  lemma FirstNote(e: Event)
    requires !e.Data?
    ensures Proper(None, false, [Notify(e)]) && After(None, [Notify(e)]) == None
  {
    NoAction(None);
    Note(e, [], false);
    assert [Notify(e)] == [Notify(e)] + [];
  }

  lemma VersionActs(p: Parser, ch: char)
    requires PartOf(p.state).VersionPart?
    ensures Live(p.state).None? && ActsOk(None, StepVersion(p, ch))
  {
    hide Proper, After, StepVersion, Live, PartOf;
    NoAction(None);
    VersionMoves(p, ch);
    VersionLive(p.state);
    VersionLive(HeaderFieldStart);
    if StepVersion(p, ch).Next? { VersionLive(StepVersion(p, ch).parser.state); }
  }

  lemma VersionLive(s: State)
    requires PartOf(s).VersionPart? || s.HeaderFieldStart?
    ensures Live(s).None?
  {
  }

  lemma StatusByteActs(p: Parser, ch: char)
    requires p.state.ResStatus?
    ensures ActsOk(Some(Status), StatusByte(p, ch))
  {
    hide Proper, After;
    CloseRun(Status, Some(Status));
    ExtendRun(Status);
  }

  lemma StartStatusActs(p: Parser, ch: char)
    ensures ActsOk(None, StartStatus(p, ch))
  {
    hide Proper, After;
    OpenRun(Status, None);
    NoAction(None);
    EmptyRun(Status, []);
    assert [Mark(Status), Flush(Status)] + [] == [Mark(Status)] + [Flush(Status)];
  }

  lemma StatusLive(s: State)
    requires PartOf(s).StatusLinePart?
    ensures Live(s) == if s.ResStatus? then Some(Status) else None
  {
  }

  lemma StatusWordActs(p: Parser, ch: char)
    requires PartOf(p.state).StatusLinePart? && !p.state.ResStatus?
    ensures ActsOk(None, StepStatusLine(p, ch))
  {
    hide StatusByte, StartStatus, Proper, After;
    NoAction(None);
    FirstNote(MessageBegin);
    StartStatusActs(p, ch);
  }

  lemma StatusLineActs(p: Parser, ch: char)
    requires PartOf(p.state).StatusLinePart?
    ensures ActsOk(Live(p.state), StepStatusLine(p, ch))
  {
    StatusLive(p.state);
    hide PartOf, StatusByte, StartStatus, ActsOk;
    if p.state.ResStatus? {
      StatusByteActs(p, ch);
    } else {
      StatusWordActs(p, ch);
    }
  }

  lemma NewMessageLive(p: Parser)
    ensures Live(NewMessage(p)).None?
  {
  }

  lemma DoneActs(p: Parser)
    ensures ActsOk(None, MessageDone(p)) && ActsOk(None, HeadersDone(p))
  {
    NewMessageLive(p);
    NewMessageLive(p.(nread := 0));
    hide NewMessage, Proper, After, HasBody, NeedsEof;
    FirstNote(MessageComplete);
    NoAction(None);
  }

  lemma PrefixNote(e: Event, o: Outcome)
    requires !e.Data? && ActsOk(None, o)
    ensures ActsOk(None, Prefix([Notify(e)], o))
  {
    hide Proper, After, LiveOk;
    NoAction(None);
    match o
    case Next(q, acts) => Note(e, acts, false);
    case Exit(q, acts) => Note(e, acts, false);
    case Fail(_, acts) => Note(e, acts, false);
  }

  lemma EndOfHeadersActs(p: Parser, ch: char)
    ensures ActsOk(None, EndOfHeaders(p, ch))
  {
    hide ActsOk, MessageDone, HeadersDone, Prefix;
    DoneActs(p);
    PrefixNote(ChunkComplete, MessageDone(p));
    DoneActs(p.(upgrade := true));
    DoneActs(p.(upgrade := false));
    PrefixNote(HeadersComplete(p.verb, p.major, p.minor), HeadersDone(p.(upgrade := true)));
    PrefixNote(HeadersComplete(p.verb, p.major, p.minor), HeadersDone(p.(upgrade := false)));
    NoFailure();
  }

  lemma NoFailure()
    ensures forall e, live :: ActsOk(live, Fail(e, []))
  {
  }

  lemma FieldStartActs(p: Parser, ch: char)
    ensures ActsOk(None, FieldStart(p, ch))
  {
    hide EndOfHeaders, Proper, After, FirstFieldState, IsToken, Token;
    EndOfHeadersActs(p.(state := HeadersAlmostDone), ch);
    NoAction(None);
    OpenRun(HeaderFieldData, None);
  }

  lemma ValueStartActs(p: Parser, ch: char)
    ensures ActsOk(None, ValueStart(p, ch))
  {
    hide Proper, After, FirstValueState, Lower;
    OpenRun(HeaderValueData, None);
  }

  lemma FieldByteActs(p: Parser, ch: char)
    requires p.state.HeaderField?
    ensures ActsOk(Some(HeaderFieldData), FieldByte(p, ch))
  {
    hide Proper, After, IsToken, FieldScan, Token;
    ExtendRun(HeaderFieldData);
    CloseRun(HeaderFieldData, Some(HeaderFieldData));
  }

  lemma ValueLetterStays(p: Parser, ch: char)
    ensures ValueLetter(p, ch).Some? ==> ValueLetter(p, ch).value.state == p.state
  {
    hide ValueScan;
  }

  lemma ValueByteActs(p: Parser, ch: char)
    requires p.state.HeaderValue?
    ensures ActsOk(Some(HeaderValueData), ValueByte(p, ch))
  {
    hide Proper, After, ValueLetter;
    ValueLetterStays(p, ch);
    ExtendRun(HeaderValueData);
    CloseRun(HeaderValueData, Some(HeaderValueData));
  }

  lemma AfterEmptyLineActs(p: Parser, ch: char)
    ensures ActsOk(None, AfterEmptyLine(p, ch))
  {
    var q := p.(flags := Commit(p.flags, p.headerState), state := HeaderFieldStart);
    FieldStartActs(q, ch);
    NoAction(None);
    hide FieldStart, Proper, After;
    match FieldStart(q, ch)
    case Next(_, acts) => EmptyRun(HeaderValueData, acts);
    case Exit(_, acts) => EmptyRun(HeaderValueData, acts);
    case Fail(_, acts) => EmptyRun(HeaderValueData, acts);
  }

  lemma HeadersActs(p: Parser, ch: char)
    requires PartOf(p.state).HeaderPart?
    ensures ActsOk(Live(p.state), StepHeaders(p, ch))
  {
    hide FieldStart, FieldByte, ValueStart, ValueByte, AfterEmptyLine, EndOfHeaders, Commit, Proper, After;
    NoAction(None);
    match p.state
    case HeaderFieldStart => FieldStartActs(p, ch);
    case HeaderField => FieldByteActs(p, ch);
    case HeaderValueDiscardWs => ValueStartActs(p, ch);
    case HeaderValueDiscardLws => AfterEmptyLineActs(p, ch);
    case HeaderValue => ValueByteActs(p, ch);
    case HeaderValueLws =>
      ValueStartActs(if p.headerState.ContentLengthNum? then p.(headerState := ContentLengthWs) else p, ch);
      FieldStartActs(p.(flags := Commit(p.flags, p.headerState), state := HeaderFieldStart), ch);
    case HeadersAlmostDone => EndOfHeadersActs(p, ch);
    case _ =>
  }

  lemma ChunkLineActs(p: Parser, ch: char)
    requires p.state.ChunkSizeStart? || p.state.ChunkSize? || p.state.ChunkParameters? || p.state.ChunkSizeAlmostDone?
    ensures ActsOk(None, StepBody(p, ch))
  {
    hide Proper, After, MessageDone, IsHex;
    NoAction(None);
    FirstNote(ChunkHeader(0));
    FirstNote(ChunkHeader(p.contentLength));
  }

  lemma BodyByteActs(p: Parser, ch: char, live: Option<Kind>)
    requires MayBeInBody(p.state) && LiveOk(p.state, live)
    ensures ActsOk(live, StepBody(p, ch))
  {
    hide Proper, After, MessageDone;
    OpenRun(Body, live);
    CloseRun(Body, live);
    if p.state.BodyIdentity? {
      WholeRun(Body, live, MessageComplete);
      MessageDoneShape(p.(contentLength := 0));
    }
  }

  lemma BodyActs(p: Parser, ch: char, live: Option<Kind>)
    requires PartOf(p.state).BodyPart? && LiveOk(p.state, live)
    ensures ActsOk(live, StepBody(p, ch))
  {
    BodyPhase(p.state);
    if MayBeInBody(p.state) {
      BodyByteActs(p, ch, live);
    } else if p.state.ChunkDataDone? {
      hide Proper, After, PartOf, MessageDone;
      FirstNote(ChunkComplete);
    } else {
      hide ActsOk, StepBody;
      ChunkLineActs(p, ch);
    }
  }

  lemma MessageDoneShape(p: Parser)
    ensures
      var q := p.(state := NewMessage(p));
      MessageDone(p) == (if p.upgrade then Exit(q, [Notify(MessageComplete)]) else Next(q, [Notify(MessageComplete)]))
      && Live(q.state).None?
  {
    NewMessageLive(p);
  }

  lemma StartActs(p: Parser, ch: char)
    requires PartOf(p.state).StartPart?
    ensures Live(p.state).None? && ActsOk(None, Dispatch(p, ch))
  {
    hide StartRequest, Proper, After, StepRequestLine, StepVersion, StepStatusLine, StepHeaders, StepBody;
    NoAction(None);
    FirstNote(MessageBegin);
    var q := Cleared(p).(role := Request, state := StartReq);
    RequestLineActs(q, ch);
    assert StepRequestLine(q, ch) == StartRequest(q, ch) by { StartIsStart(q, ch); }
  }

  lemma StartIsStart(q: Parser, ch: char)
    requires q.state.StartReq?
    ensures StepRequestLine(q, ch) == StartRequest(q, ch)
  {
    hide StartRequest, ReadMethod, UrlByte, EndOfUrl;
  }

  lemma LiveExactly(s: State, live: Option<Kind>)
    requires LiveOk(s, live) && !PartOf(s).BodyPart?
    ensures live == Live(s)
  {
  }

  lemma DispatchActs(p: Parser, ch: char, live: Option<Kind>)
    requires LiveOk(p.state, live)
    ensures ActsOk(live, Dispatch(p, ch))
  {
    hide LiveOk, Live, ActsOk, PartOf, StartEither, StepRequestLine, StepVersion, StepStatusLine, StepHeaders, StepBody;
    if !PartOf(p.state).BodyPart? { LiveExactly(p.state, live); }
    match PartOf(p.state)
    case StartPart => StartActs(p, ch);
    case RequestLinePart => RequestLineActs(p, ch);
    case VersionPart => VersionActs(p, ch);
    case StatusLinePart => StatusLineActs(p, ch);
    case HeaderPart => HeadersActs(p, ch);
    case BodyPart => BodyActs(p, ch, live);
  }

  /** Every byte acts properly on the open run, and leaves open the run its new state asks for. */
  lemma StepActs(max: nat, p: Parser, ch: char, live: Option<Kind>)
    requires LiveOk(p.state, live)
    ensures ActsOk(live, Step(max, p, ch))
  {
    hide Dispatch, Proper, After, LiveOk;
    DispatchActs(p, ch, live);
    DispatchActs(p.(nread := p.nread + 1), ch, live);
  }
}
