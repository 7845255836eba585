/** What every reachable parser record satisfies between two bytes. */
module ParserInvariant {
  import opened Bytes
  import opened ParserTypes
  import opened ParserStep

  /** The states by what the record owes them. */
  datatype Phase =
    | Idle | EitherStart | EitherH | MethodName | RequestLine | StatusLine
    | Head | FieldName | Value
    | ChunkStart | ChunkLine | ChunkBytes | ChunkEnd | Identity | UntilEof

  function PhaseOf(s: State): Phase {
    match s
    case Dead | StartReq | StartRes => Idle
    case StartReqOrRes => EitherStart
    case ResOrRespH => EitherH
    case ResH | ResHT | ResHTT | ResHTTP | ResHttpMajor | ResHttpDot | ResHttpMinor
       | ResHttpEnd | ResFirstStatusCode | ResStatusCode | ResStatusStart | ResStatus | ResLineAlmostDone => StatusLine
    case ReqMethod => MethodName
    case HeaderFieldStart | HeadersAlmostDone => Head
    case HeaderField | HeaderValueDiscardWs | HeaderValueDiscardWsAlmostDone | HeaderValueDiscardLws => FieldName
    case HeaderValue | HeaderAlmostDone | HeaderValueLws => Value
    case ChunkSizeStart => ChunkStart
    case ChunkSize | ChunkParameters | ChunkSizeAlmostDone => ChunkLine
    case ChunkData => ChunkBytes
    case ChunkDataAlmostDone | ChunkDataDone => ChunkEnd
    case BodyIdentity => Identity
    case BodyIdentityEof => UntilEof
    case _ => RequestLine
  }

  /** A matcher has read a proper prefix of its word. */
  predicate Matching(hs: HeaderState, index: nat) { index + 1 < |Wanted(hs)| }

  predicate FieldStateOk(hs: HeaderState, index: nat) {
    match hs
    case General | Connection | ContentLength | TransferEncoding | Upgrade => true
    case HC => index == 0
    case HCO => index == 1
    case HCON => index == 2
    case MatchingConnection | MatchingProxyConnection | MatchingContentLength | MatchingTransferEncoding
       | MatchingUpgrade => Matching(hs, index)
    case _ => false
  }

  predicate ValueStateOk(hs: HeaderState, index: nat) {
    match hs
    case General | ContentLengthNum | ContentLengthWs | TeToken | TeChunked
       | ConnToken | ConnKeepAlive | ConnClose | ConnUpgrade => true
    case TeTokenStart | ConnTokenStart => index == 0
    case TeMatchingChunked | ConnMatchingKeepAlive | ConnMatchingClose | ConnMatchingUpgrade => Matching(hs, index)
    case _ => false
  }

  predicate InTransferEncoding(hs: HeaderState) {
    hs.TransferEncoding? || hs.TeTokenStart? || hs.TeMatchingChunked? || hs.TeToken? || hs.TeChunked?
  }

  /** `content_length` keeps its "none" value until a `Content-Length` header is read. */
  predicate LengthOk(p: Parser) {
    p.flags.trailing || p.flags.contentLength || p.contentLength == ULLONG_MAX
  }

  predicate InChunk(p: Parser) {
    p.flags.chunked && !p.flags.trailing && !p.flags.contentLength
  }

  predicate PhaseInv(p: Parser) {
    match PhaseOf(p.state)
    case Idle => (p.state.StartRes? ==> p.role.Response?) && (p.state.StartReq? ==> p.role.Request?)
    case EitherStart => p.role.Both?
    case EitherH => p.role.Both? && LengthOk(p)
    case MethodName => LengthOk(p) && 1 <= p.index <= |MethodString(p.verb)|
    case RequestLine => LengthOk(p)
    case StatusLine => LengthOk(p) && p.role.Response?
    case Head => LengthOk(p)
    case FieldName =>
      && LengthOk(p) && FieldStateOk(p.headerState, p.index)
      && (InTransferEncoding(p.headerState) ==> p.usesTE)
    case Value =>
      && LengthOk(p) && ValueStateOk(p.headerState, p.index)
      && (InTransferEncoding(p.headerState) ==> p.usesTE)
      && (InContentLength(p.headerState) ==> p.flags.contentLength)
    case ChunkStart => InChunk(p) && p.nread == 0
    case ChunkLine => InChunk(p) && p.contentLength < ULLONG_MAX
    case ChunkBytes => InChunk(p) && 0 < p.contentLength < ULLONG_MAX
    case ChunkEnd => InChunk(p) && p.contentLength == 0
    case Identity => !p.usesTE && p.flags.contentLength && 0 < p.contentLength
    case UntilEof => p.role.Response?
  }

  predicate FlagsInv(p: Parser) {
    && p.contentLength <= ULLONG_MAX
    && (p.flags.chunked ==> p.usesTE)
    && (p.flags.trailing ==> p.flags.chunked)
    && (p.flags.contentLength ==> p.contentLength < ULLONG_MAX)
    && (p.role.Both? ==> PhaseOf(p.state).EitherStart? || PhaseOf(p.state).EitherH?)
  }

  predicate Inv(p: Parser) { FlagsInv(p) && PhaseInv(p) }

  predicate Good(max: nat, p: Parser) { Inv(p) && p.nread <= max }

  predicate GoodOutcome(max: nat, o: Outcome) {
    match o
    case Next(q, _) => Good(max, q)
    case Exit(q, _) => Good(max, q)
    case Fail(e, _) => e != Ok
  }

  lemma InitGood(max: nat, role: Role)
    ensures Good(max, Init(role))
  {
  }

  // ----- Moves: the few ways in which a step changes the record -----

  lemma NewMessageIsIdle(p: Parser)
    requires !p.role.Both?
    ensures PhaseOf(NewMessage(p)).Idle?
    ensures (NewMessage(p).StartRes? ==> p.role.Response?) && (NewMessage(p).StartReq? ==> p.role.Request?)
  {
  }

  /** Any record may go idle. */
  lemma MoveToIdle(max: nat, p: Parser, upgrade: bool)
    requires FlagsInv(p) && p.nread <= max && !p.role.Both?
    ensures Good(max, p.(state := NewMessage(p)))
    ensures Good(max, p.(upgrade := upgrade, nread := 0, state := NewMessage(p.(upgrade := upgrade, nread := 0))))
  {
    hide NewMessage;
    NewMessageIsIdle(p);
    NewMessageIsIdle(p.(upgrade := upgrade, nread := 0));
  }

  predicate IsLine(ph: Phase) { ph.RequestLine? || ph.StatusLine? || ph.Head? }

  lemma MoveInLine(max: nat, p: Parser, s: State, major: nat, minor: nat, status: nat, index: nat)
    requires Good(max, p) && IsLine(PhaseOf(p.state)) && (PhaseOf(s) == PhaseOf(p.state) || PhaseOf(s).Head?)
    ensures Good(max, p.(state := s, major := major, minor := minor, status := status, index := index))
  {
    hide PhaseOf;
  }

  lemma UrlStaysInLine(s: State, ch: char)
    ensures ParseUrlChar(s, ch).Dead? || PhaseOf(ParseUrlChar(s, ch)).RequestLine?
  {
  }

  lemma UrlByteKeeps(max: nat, p: Parser, ch: char, first: bool)
    requires Good(max, p) && PhaseOf(p.state).RequestLine?
    ensures GoodOutcome(max, UrlByte(p, ch, first))
  {
    hide ParseUrlChar, Good;
    UrlStaysInLine(p.state, ch);
    var s := ParseUrlChar(p.state, ch);
    if !s.Dead? { MoveInLine(max, p, s, p.major, p.minor, p.status, p.index); }
  }

  lemma StartRequestKeeps(max: nat, p: Parser, ch: char)
    requires Good(max, p) && p.state.StartReq?
    ensures GoodOutcome(max, StartRequest(p, ch))
  {
  }

  predicate GuessFits(m: Method, index: nat, ch: char) {
    SecondGuess(m, index, ch).Some? ==>
      var n, was := MethodString(SecondGuess(m, index, ch).value), MethodString(m);
      index < |n| && n[index] == ch && index <= |was| && forall j :: 0 <= j < index ==> n[j] == was[j]
  }

  lemma GuessFitsP(m: Method, index: nat, ch: char)
    requires m.POST? || m.PUT? || m.PROPFIND?
    ensures GuessFits(m, index, ch)
  {
  }

  lemma GuessFitsL(m: Method, index: nat, ch: char)
    requires m.LOCK? || m.UNLOCK? || m.REPORT?
    ensures GuessFits(m, index, ch)
  {
  }

  lemma GuessFitsC(m: Method, index: nat, ch: char)
    requires m.CONNECT? || m.SUBSCRIBE?
    ensures GuessFits(m, index, ch)
  {
  }

  lemma GuessFitsM(m: Method, index: nat, ch: char)
    requires m.MKCOL?
    ensures GuessFits(m, index, ch)
  {
  }

  lemma NoSecondGuess(m: Method, index: nat, ch: char)
    requires !(m.POST? || m.PUT? || m.PROPFIND? || m.LOCK? || m.UNLOCK? || m.REPORT? || m.CONNECT? || m.SUBSCRIBE?
               || m.MKCOL?)
    ensures SecondGuess(m, index, ch).None?
  {
  }

  /** A second guess agrees with the first on the letters read, and fits the new one. */
  lemma SecondGuessFits(m: Method, index: nat, ch: char)
    ensures GuessFits(m, index, ch)
  {
    hide SecondGuess, MethodString;
    if m.POST? || m.PUT? || m.PROPFIND? {
      GuessFitsP(m, index, ch);
    } else if m.LOCK? || m.UNLOCK? || m.REPORT? {
      GuessFitsL(m, index, ch);
    } else if m.CONNECT? || m.SUBSCRIBE? {
      GuessFitsC(m, index, ch);
    } else if m.MKCOL? {
      GuessFitsM(m, index, ch);
    } else {
      NoSecondGuess(m, index, ch);
    }
  }

  lemma ReadMethodKeeps(max: nat, p: Parser, ch: char)
    requires Good(max, p) && p.state.ReqMethod?
    ensures GoodOutcome(max, ReadMethod(p, ch))
  {
    hide MethodString, SecondGuess;
    assert Bump(p.index) <= p.index + 1;
    SecondGuessFits(p.verb, p.index, ch);
    MethodsAreShort(p.verb);
  }

  lemma MethodsAreShort(m: Method)
    ensures 3 <= |MethodString(m)| <= 11
  {
  }

  lemma InLine(p: Parser)
    requires PartOf(p.state).VersionPart?
      || (PartOf(p.state).RequestLinePart? && !p.state.StartReq? && !p.state.ReqMethod?)
    ensures PhaseOf(p.state).RequestLine?
  {
  }

  lemma EndOfUrlKeeps(max: nat, p: Parser, ch: char)
    requires Good(max, p) && PhaseOf(p.state).RequestLine?
    ensures GoodOutcome(max, EndOfUrl(p, ch))
  {
    hide Good, UrlByte;
    UrlByteKeeps(max, p, ch, false);
    MoveInLine(max, p, ReqHttpStart, p.major, p.minor, p.status, p.index);
    MoveInLine(max, p, ReqLineAlmostDone, 0, 9, p.status, p.index);
    MoveInLine(max, p, HeaderFieldStart, 0, 9, p.status, p.index);
  }

  lemma UrlKeeps(max: nat, p: Parser, ch: char)
    requires Good(max, p) && PartOf(p.state).RequestLinePart? && !p.state.StartReq? && !p.state.ReqMethod?
    ensures GoodOutcome(max, StepRequestLine(p, ch))
  {
    hide Good, UrlByte, EndOfUrl, ReadMethod, StartRequest, PartOf;
    InLine(p);
    UrlByteKeeps(max, p, ch, false);
    EndOfUrlKeeps(max, p, ch);
    if p.state.ReqSpacesBeforeUrl? {
      MoveInLine(max, p, ReqServerStart, p.major, p.minor, p.status, p.index);
      UrlByteKeeps(max, p, ch, true);
      UrlByteKeeps(max, p.(state := ReqServerStart), ch, true);
    }
  }

  lemma RequestLineKeeps(max: nat, p: Parser, ch: char)
    requires Good(max, p) && PartOf(p.state).RequestLinePart?
    ensures GoodOutcome(max, StepRequestLine(p, ch))
  {
    hide Good, EndOfUrl, ReadMethod, StartRequest, PartOf, UrlByte;
    if p.state.StartReq? {
      StartRequestKeeps(max, p, ch);
    } else if p.state.ReqMethod? {
      ReadMethodKeeps(max, p, ch);
    } else {
      UrlKeeps(max, p, ch);
    }
  }

  lemma VersionMoves(p: Parser, ch: char)
    requires PartOf(p.state).VersionPart?
    ensures
      match StepVersion(p, ch)
      case Next(q, acts) =>
        q == p.(state := q.state, major := q.major, minor := q.minor) && acts == []
        && (PartOf(q.state).VersionPart? || q.state.HeaderFieldStart?)
      case Exit(_, _) => false
      case Fail(e, acts) => e != Ok && acts == []
  {
  }

  lemma VersionKeeps(max: nat, p: Parser, ch: char)
    requires Good(max, p) && PartOf(p.state).VersionPart?
    ensures GoodOutcome(max, StepVersion(p, ch))
  {
    hide Good, PartOf, StepVersion;
    InLine(p);
    VersionMoves(p, ch);
    var o := StepVersion(p, ch);
    if o.Next? {
      var q := o.parser;
      if !q.state.HeaderFieldStart? { InLine(q); }
      MoveInLine(max, p, q.state, q.major, q.minor, p.status, p.index);
    }
  }

  lemma StatusPhase(s: State)
    requires PartOf(s).StatusLinePart?
    ensures s.ResOrRespH? || s.StartRes? || PhaseOf(s).StatusLine?
  {
  }

  lemma StatusByteKeeps(max: nat, p: Parser, ch: char)
    requires Good(max, p) && PhaseOf(p.state).StatusLine?
    ensures GoodOutcome(max, StatusByte(p, ch))
  {
    hide Good;
    MoveInLine(max, p, ResLineAlmostDone, p.major, p.minor, p.status, p.index);
    MoveInLine(max, p, HeaderFieldStart, p.major, p.minor, p.status, p.index);
  }

  lemma StartStatusKeeps(max: nat, p: Parser, ch: char)
    requires Good(max, p) && PhaseOf(p.state).StatusLine?
    ensures GoodOutcome(max, StartStatus(p, ch))
  {
    hide Good, StatusByte;
    MoveInLine(max, p, ResStatus, p.major, p.minor, p.status, 0);
    StatusByteKeeps(max, p.(state := ResStatus, index := 0), ch);
  }

  lemma StartResponseKeeps(max: nat, p: Parser, ch: char)
    requires Good(max, p) && (p.state.ResOrRespH? || (p.state.StartRes? && p.role.Response?))
    ensures GoodOutcome(max, StepStatusLine(p, ch))
  {
    hide StatusByte, StartStatus;
  }

  lemma StatusLineMoves(p: Parser, ch: char)
    requires PartOf(p.state).StatusLinePart? && PhaseOf(p.state).StatusLine?
    requires !p.state.ResStatusStart? && !p.state.ResStatus?
    ensures
      match StepStatusLine(p, ch)
      case Next(q, acts) =>
        (p.state.ResStatusCode? && StepStatusLine(p, ch) == StartStatus(p, ch))
        || (q == p.(state := q.state, major := q.major, minor := q.minor, status := q.status) && acts == []
            && (PhaseOf(q.state).StatusLine? || q.state.HeaderFieldStart?))
      case Exit(_, _) => p.state.ResStatusCode? && StepStatusLine(p, ch) == StartStatus(p, ch)
      case Fail(e, _) => e != Ok || (p.state.ResStatusCode? && StepStatusLine(p, ch) == StartStatus(p, ch))
  {
    hide PartOf, StatusByte, StartStatus;
  }

  lemma StatusTextKeeps(max: nat, p: Parser, ch: char)
    requires Good(max, p) && PartOf(p.state).StatusLinePart? && PhaseOf(p.state).StatusLine?
    ensures GoodOutcome(max, StepStatusLine(p, ch))
  {
    hide Good, PartOf, StatusByte, StartStatus;
    StatusByteKeeps(max, p, ch);
    StartStatusKeeps(max, p, ch);
    if !p.state.ResStatusStart? && !p.state.ResStatus? {
      hide StepStatusLine;
      StatusLineMoves(p, ch);
      var o := StepStatusLine(p, ch);
      if o.Next? && o != StartStatus(p, ch) {
        var q := o.parser;
        MoveInLine(max, p, q.state, q.major, q.minor, q.status, p.index);
      }
    }
  }

  lemma StatusLineKeeps(max: nat, p: Parser, ch: char)
    requires Good(max, p) && PartOf(p.state).StatusLinePart?
    ensures GoodOutcome(max, StepStatusLine(p, ch))
  {
    hide PartOf, StepStatusLine, GoodOutcome;
    StatusPhase(p.state);
    if p.state.StartRes? || p.state.ResOrRespH? {
      StartResponseKeeps(max, p, ch);
    } else {
      StatusTextKeeps(max, p, ch);
    }
  }

  // ----- End of the headers -----

  lemma MessageDoneKeeps(max: nat, p: Parser)
    requires FlagsInv(p) && p.nread <= max && !p.role.Both?
    ensures GoodOutcome(max, MessageDone(p))
  {
    hide Good, NewMessage;
    MoveToIdle(max, p, p.upgrade);
  }

  lemma PrefixKeeps(max: nat, acts: seq<Action>, o: Outcome)
    requires GoodOutcome(max, o)
    ensures GoodOutcome(max, Prefix(acts, o))
  {
  }

  lemma HeadersDoneKeeps(max: nat, p: Parser)
    requires FlagsInv(p) && p.nread <= max && !p.role.Both? && LengthOk(p) && !p.flags.trailing
    requires !(p.usesTE && p.flags.contentLength)
    ensures GoodOutcome(max, HeadersDone(p))
  {
    hide NewMessage;
    MoveToIdle(max, p, p.upgrade);
    var q := p.(nread := 0);
    assert q == p.(upgrade := p.upgrade, nread := 0);
  }

  lemma EndOfHeadersKeeps(max: nat, p: Parser, ch: char)
    requires FlagsInv(p) && p.nread <= max && !p.role.Both? && LengthOk(p)
    ensures GoodOutcome(max, EndOfHeaders(p, ch))
  {
    hide HeadersDone, MessageDone, PhaseOf, Good, Inv;
    if p.flags.trailing {
      MessageDoneKeeps(max, p);
    } else if !(p.usesTE && p.flags.contentLength) {
      HeadersDoneKeeps(max, p.(upgrade := true));
      HeadersDoneKeeps(max, p.(upgrade := false));
    }
  }

  // ----- Headers -----

  lemma FirstFieldOk(c: char)
    ensures FieldStateOk(FirstFieldState(c), 0) && !InTransferEncoding(FirstFieldState(c))
  {
  }

  lemma FieldStartKeeps(max: nat, p: Parser, ch: char)
    requires Good(max, p) && p.state.HeaderFieldStart?
    ensures GoodOutcome(max, FieldStart(p, ch))
  {
    hide EndOfHeaders, FieldStateOk, FirstFieldState, InTransferEncoding, IsToken, Token;
    if ch == LF {
      EndOfHeadersKeeps(max, p.(state := HeadersAlmostDone), ch);
    } else if IsToken(ch) {
      FirstFieldOk(Token(ch));
    }
  }

  lemma FieldScanOk(hs: HeaderState, index: nat, c: char)
    requires FieldStateOk(hs, index)
    ensures
      var s := FieldScan(hs, index, c);
      FieldStateOk(s.headerState, s.index) && (InTransferEncoding(s.headerState) ==> s.headerState.TransferEncoding?)
  {
  }

  lemma FieldByteKeeps(max: nat, p: Parser, ch: char)
    requires Good(max, p) && p.state.HeaderField?
    ensures GoodOutcome(max, FieldByte(p, ch))
    ensures IsToken(ch) ==> Good(max, FieldLetter(p, ch)) && FieldLetter(p, ch).state.HeaderField?
  {
    hide FieldScan, FieldStateOk, IsToken, Token;
    if IsToken(ch) {
      FieldScanOk(p.headerState, p.index, Token(ch));
    }
  }

  lemma FirstValueOk(hs: HeaderState, c: char)
    ensures
      var s := FirstValueState(hs, c);
      ValueStateOk(s, 0) && (InTransferEncoding(s) ==> InTransferEncoding(hs))
      && (InContentLength(s) ==> s == hs)
  {
  }

  lemma NoLengthInName(hs: HeaderState, index: nat)
    requires FieldStateOk(hs, index)
    ensures InContentLength(hs) ==> hs.ContentLength?
  {
  }

  lemma LengthStartKeeps(max: nat, p: Parser, ch: char)
    requires Good(max, p) && (PhaseOf(p.state).FieldName? || PhaseOf(p.state).Value?)
    ensures GoodOutcome(max, LengthStart(p, ch))
  {
    hide FieldStateOk;
  }

  lemma ValueStartKeeps(max: nat, p: Parser, ch: char)
    requires Good(max, p) && (PhaseOf(p.state).FieldName? || PhaseOf(p.state).Value?)
    ensures GoodOutcome(max, ValueStart(p, ch))
  {
    LengthStartKeeps(max, p, ch);
    hide LengthStart, FieldStateOk, ValueStateOk, FirstValueState, Lower;
    FirstValueOk(p.headerState, Lower(ch));
    if PhaseOf(p.state).FieldName? { NoLengthInName(p.headerState, p.index); }
  }

  lemma ValueScanOk(hs: HeaderState, index: nat, ch: char)
    requires ValueStateOk(hs, index) && !InContentLength(hs)
    ensures
      var s := ValueScan(hs, index, ch);
      ValueStateOk(s.headerState, s.index) && !InContentLength(s.headerState)
      && (InTransferEncoding(s.headerState) ==> InTransferEncoding(hs))
  {
    hide Lower, IsToken;
  }

  lemma ValueLetterKeeps(max: nat, p: Parser, ch: char)
    requires Good(max, p) && p.state.HeaderValue? && ValueLetter(p, ch).Some?
    ensures Good(max, ValueLetter(p, ch).value) && ValueLetter(p, ch).value.state.HeaderValue?
  {
    hide ValueScan, ValueStateOk;
    if InContentLength(p.headerState) {
      assert ValueStateOk(ContentLengthNum, p.index) && ValueStateOk(ContentLengthWs, p.index) by {
        ContentLengthIsValue(p.index);
      }
    } else {
      ValueScanOk(p.headerState, p.index, ch);
    }
  }

  lemma ContentLengthIsValue(index: nat)
    ensures ValueStateOk(ContentLengthNum, index) && ValueStateOk(ContentLengthWs, index)
  {
  }

  lemma MoveInHeader(max: nat, p: Parser, s: State)
    requires Good(max, p) && PhaseOf(s) == PhaseOf(p.state) && (PhaseOf(s).FieldName? || PhaseOf(s).Value?)
    ensures Good(max, p.(state := s))
  {
    hide PhaseOf;
  }

  lemma ValueByteKeeps(max: nat, p: Parser, ch: char)
    requires Good(max, p) && p.state.HeaderValue?
    ensures GoodOutcome(max, ValueByte(p, ch))
  {
    hide Good, ValueLetter;
    if ValueLetter(p, ch).Some? {
      ValueLetterKeeps(max, p, ch);
    }
    MoveInHeader(max, p, HeaderAlmostDone);
    MoveInHeader(max, p, HeaderValueLws);
  }

  /** The end of a header may set a flag; `chunked` only inside `Transfer-Encoding`. */
  lemma CommitKeeps(max: nat, p: Parser)
    requires Good(max, p) && (PhaseOf(p.state).FieldName? || PhaseOf(p.state).Value?)
    ensures Good(max, p.(flags := Commit(p.flags, p.headerState), state := HeaderFieldStart))
  {
  }

  lemma FoldKeeps(max: nat, p: Parser)
    requires Good(max, p) && p.state.HeaderValueLws? && p.headerState.ContentLengthNum?
    ensures Good(max, p.(headerState := ContentLengthWs))
  {
  }

  lemma EmptyLineKeeps(max: nat, p: Parser, ch: char)
    requires Good(max, p) && PhaseOf(p.state).FieldName?
    ensures GoodOutcome(max, AfterEmptyLine(p, ch))
  {
    hide Good, FieldStart, Commit;
    MoveInHeader(max, p, HeaderValueDiscardWs);
    CommitKeeps(max, p);
    FieldStartKeeps(max, p.(flags := Commit(p.flags, p.headerState), state := HeaderFieldStart), ch);
  }

  lemma ValueLineKeeps(max: nat, p: Parser, ch: char)
    requires Good(max, p) && p.state.HeaderValueLws?
    ensures GoodOutcome(max, AfterValueLine(p, ch))
  {
    hide Good, FieldStart, ValueStart, Commit;
    var q := if p.headerState.ContentLengthNum? then p.(headerState := ContentLengthWs) else p;
    if p.headerState.ContentLengthNum? { FoldKeeps(max, p); }
    ValueStartKeeps(max, q, ch);
    CommitKeeps(max, p);
    FieldStartKeeps(max, p.(flags := Commit(p.flags, p.headerState), state := HeaderFieldStart), ch);
  }

  lemma HeadLineKeeps(max: nat, p: Parser, ch: char)
    requires Good(max, p) && p.state.HeadersAlmostDone?
    ensures GoodOutcome(max, EndOfHeaders(p, ch))
  {
    hide EndOfHeaders;
    EndOfHeadersKeeps(max, p, ch);
  }

  lemma DiscardKeeps(max: nat, p: Parser, ch: char)
    requires Good(max, p)
    requires (p.state.HeaderValueDiscardWs? || p.state.HeaderValueDiscardWsAlmostDone? || p.state.HeaderAlmostDone?)
    ensures GoodOutcome(max, StepHeaders(p, ch))
  {
    hide Good, FieldStart, FieldByte, ValueStart, ValueByte, EndOfHeaders, AfterEmptyLine, AfterValueLine;
    match p.state
    case HeaderValueDiscardWs =>
      MoveInHeader(max, p, HeaderValueDiscardWsAlmostDone);
      MoveInHeader(max, p, HeaderValueDiscardLws);
      ValueStartKeeps(max, p, ch);
    case HeaderValueDiscardWsAlmostDone => MoveInHeader(max, p, HeaderValueDiscardLws);
    case _ => MoveInHeader(max, p, HeaderValueLws);
  }

  lemma HeadersKeep(max: nat, p: Parser, ch: char)
    requires Good(max, p) && PartOf(p.state).HeaderPart?
    ensures GoodOutcome(max, StepHeaders(p, ch))
  {
    hide Good, FieldStart, FieldByte, ValueStart, ValueByte, EndOfHeaders, AfterEmptyLine, AfterValueLine, GoodOutcome;
    match p.state
    case HeaderFieldStart => FieldStartKeeps(max, p, ch);
    case HeaderField => FieldByteKeeps(max, p, ch);
    case HeaderValueDiscardLws => EmptyLineKeeps(max, p, ch);
    case HeaderValue => ValueByteKeeps(max, p, ch);
    case HeaderValueLws => ValueLineKeeps(max, p, ch);
    case HeadersAlmostDone => HeadLineKeeps(max, p, ch);
    case _ => DiscardKeeps(max, p, ch);
  }

  // ----- Body -----

  lemma ChunkLineKeeps(max: nat, p: Parser, ch: char)
    requires Good(max, p) && (p.state.ChunkSize? || p.state.ChunkParameters?)
    ensures GoodOutcome(max, StepBody(p, ch))
  {
    hide MessageDone, BodyByte, IsHex, Unhex;
    if IsHex(ch) { HexIsSmall(ch); }
  }

  lemma HexIsSmall(ch: char)
    requires IsHex(ch)
    ensures Unhex(ch) < 16
  {
  }

  lemma ChunkSizeEndKeeps(max: nat, p: Parser, ch: char)
    requires Good(max, p) && p.state.ChunkSizeAlmostDone?
    ensures GoodOutcome(max, StepBody(p, ch))
  {
    hide MessageDone, BodyByte, IsHex, Unhex;
  }

  lemma ChunkEndKeeps(max: nat, p: Parser, ch: char)
    requires Good(max, p) && PhaseOf(p.state).ChunkEnd?
    ensures GoodOutcome(max, StepBody(p, ch))
  {
    hide MessageDone, BodyByte, IsHex, Unhex;
  }

  lemma ChunkStartKeeps(max: nat, p: Parser, ch: char)
    requires Good(max, p.(nread := 0)) && p.state.ChunkSizeStart? && p.nread <= max
    ensures GoodOutcome(max, StepBody(p, ch))
  {
    hide MessageDone, BodyByte;
  }

  lemma BodyBytesKeep(max: nat, p: Parser, ch: char)
    requires Good(max, p) && (p.state.ChunkData? || p.state.BodyIdentity? || p.state.BodyIdentityEof?)
    ensures GoodOutcome(max, StepBody(p, ch))
  {
    hide MessageDone;
    if p.state.BodyIdentity? {
      MessageDoneKeeps(max, p.(contentLength := 0));
      PrefixKeeps(max, [Mark(Body), Take(Body), Flush(Body)], MessageDone(p.(contentLength := 0)));
    }
  }

  lemma BodyPhase(s: State)
    requires PartOf(s).BodyPart?
    ensures s.ChunkSizeStart? || s.ChunkSize? || s.ChunkParameters? || s.ChunkSizeAlmostDone? || PhaseOf(s).ChunkEnd?
            || s.ChunkData? || s.BodyIdentity? || s.BodyIdentityEof?
  {
  }

  lemma StartKeeps(max: nat, p: Parser, ch: char)
    requires Good(max, p) && p.state.StartReqOrRes?
    ensures GoodOutcome(max, StartEither(p, ch))
  {
    hide StartRequest;
    var q := Cleared(p).(role := Request, state := StartReq);
    StartRequestKeeps(max, q, ch);
  }

  /** Counting bytes keeps the invariant, except where the count is fixed. */
  lemma CountKeeps(max: nat, p: Parser, n: nat)
    requires Good(max, p) && n <= max && !p.state.ChunkSizeStart?
    ensures Good(max, p.(nread := n))
  {
  }

  lemma DispatchKeeps(max: nat, p: Parser, ch: char)
    requires Good(max, p) || (p.state.ChunkSizeStart? && Good(max, p.(nread := 0)) && p.nread <= max)
    ensures GoodOutcome(max, Dispatch(p, ch))
  {
    hide Good, PhaseOf, StartEither, StepRequestLine, StepVersion, StepStatusLine, StepHeaders, StepBody;
    if p.state.ChunkSizeStart? && !Good(max, p) {
      ChunkStartKeeps(max, p, ch);
    } else {
      match PartOf(p.state)
      case StartPart => if p.state.StartReqOrRes? { StartKeeps(max, p, ch); }
      case RequestLinePart => RequestLineKeeps(max, p, ch);
      case VersionPart => VersionKeeps(max, p, ch);
      case StatusLinePart => StatusLineKeeps(max, p, ch);
      case HeaderPart => HeadersKeep(max, p, ch);
      case BodyPart => BodyKeeps(max, p, ch);
    }
  }

  lemma BodyKeeps(max: nat, p: Parser, ch: char)
    requires Good(max, p) && PartOf(p.state).BodyPart?
    ensures GoodOutcome(max, StepBody(p, ch))
  {
    BodyPhase(p.state);
    if p.state.ChunkSizeStart? {
      assert p == p.(nread := 0);
    }
    hide Good, StepBody, PhaseOf, PartOf;
    if p.state.ChunkSizeStart? {
      ChunkStartKeeps(max, p, ch);
    } else if p.state.ChunkData? || p.state.BodyIdentity? || p.state.BodyIdentityEof? {
      BodyBytesKeep(max, p, ch);
    } else if p.state.ChunkSize? || p.state.ChunkParameters? {
      ChunkLineKeeps(max, p, ch);
    } else if p.state.ChunkSizeAlmostDone? {
      ChunkSizeEndKeeps(max, p, ch);
    } else {
      ChunkEndKeeps(max, p, ch);
    }
  }

  lemma CountedKeeps(max: nat, p: Parser)
    requires Good(max, p) && p.nread + 1 <= max
    ensures var q := p.(nread := p.nread + 1);
      Good(max, q) || (q.state.ChunkSizeStart? && Good(max, q.(nread := 0)) && q.nread <= max)
  {
    if p.state.ChunkSizeStart? {
      assert p.(nread := p.nread + 1).(nread := 0) == p;
    } else {
      CountKeeps(max, p, p.nread + 1);
    }
  }

  /** Every byte keeps the invariant, whatever it is. */
  lemma StepKeeps(max: nat, p: Parser, ch: char)
    requires Good(max, p)
    ensures GoodOutcome(max, Step(max, p, ch))
  {
    hide Good, Dispatch;
    if !ParsingHeader(p.state) {
      DispatchKeeps(max, p, ch);
    } else if p.nread + 1 <= max {
      CountedKeeps(max, p);
      DispatchKeeps(max, p.(nread := p.nread + 1), ch);
    }
  }
}
