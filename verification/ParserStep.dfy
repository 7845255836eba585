/** One pass of the `http_parser_execute` loop over one byte, `goto reexecute` included: a state that
    re-executes calls the function of the state it jumps to, so the call graph shows that the jumps end. */
module ParserStep {
  import opened Bytes
  import opened ParserTypes

  // ----- The URL automaton -----

  /** `parse_url_char`; it is also the scanner of `http_parser_parse_url`. */
  function ParseUrlChar(s: State, ch: char): State {
    if ch == ' ' || ch == CR || ch == LF || ch == '\t' || ch == '\U{0C}' then Dead
    else match s
      case ReqSpacesBeforeUrl =>
        if ch == '/' || ch == '*' then ReqPath else if IsAlpha(ch) then ReqSchema else Dead
      case ReqSchema => if IsAlpha(ch) then ReqSchema else if ch == ':' then ReqSchemaSlash else Dead
      case ReqSchemaSlash => if ch == '/' then ReqSchemaSlashSlash else Dead
      case ReqSchemaSlashSlash => if ch == '/' then ReqServerStart else Dead
      case ReqServerWithAt => if ch == '@' then Dead else ParseServerChar(ch)
      case ReqServerStart => ParseServerChar(ch)
      case ReqServer => ParseServerChar(ch)
      case ReqPath =>
        if IsUrlChar(ch) then ReqPath
        else if ch == '?' then ReqQueryStringStart else if ch == '#' then ReqFragmentStart else Dead
      case ReqQueryStringStart => ParseQueryChar(ch)
      case ReqQueryString => ParseQueryChar(ch)
      case ReqFragmentStart =>
        if IsUrlChar(ch) || ch == '?' then ReqFragment else if ch == '#' then ReqFragmentStart else Dead
      case ReqFragment => if IsUrlChar(ch) || ch == '?' || ch == '#' then ReqFragment else Dead
      case _ => Dead
  }

  function ParseServerChar(ch: char): State {
    if ch == '/' then ReqPath
    else if ch == '?' then ReqQueryStringStart
    else if ch == '@' then ReqServerWithAt
    else if IsUserinfoChar(ch) || ch == '[' || ch == ']' then ReqServer
    else Dead
  }

  function ParseQueryChar(ch: char): State {
    if IsUrlChar(ch) || ch == '?' then ReqQueryString else if ch == '#' then ReqFragmentStart else Dead
  }

  // ----- End of a message -----

  /** `http_message_needs_eof`; no handler asks to skip the body. */
  predicate NeedsEof(p: Parser) {
    if p.role.Request? then false
    else if p.status / 100 == 1 || p.status == 204 || p.status == 304 then false
    else if p.usesTE && !p.flags.chunked then true
    else !(p.flags.chunked || p.contentLength != ULLONG_MAX)
  }

  /** `http_should_keep_alive`. */
  predicate ShouldKeepAlive(p: Parser) {
    (if p.major > 0 && p.minor > 0 then !p.flags.close else p.flags.keepAlive) && !NeedsEof(p)
  }

  /** `NEW_MESSAGE` of the strict build. */
  function NewMessage(p: Parser): State {
    if !ShouldKeepAlive(p) then Dead else if p.role.Request? then StartReq else StartRes
  }

  function Prefix(acts: seq<Action>, o: Outcome): Outcome {
    match o
    case Next(q, rest) => Next(q, acts + rest)
    case Exit(q, rest) => Exit(q, acts + rest)
    case Fail(e, rest) => Fail(e, acts + rest)
  }

  /** `s_message_done`. */
  function MessageDone(p: Parser): Outcome {
    var q := p.(state := NewMessage(p));
    if p.upgrade then Exit(q, [Notify(MessageComplete)]) else Next(q, [Notify(MessageComplete)])
  }

  // ----- Start of a message -----

  function Cleared(p: Parser): Parser {
    p.(flags := NO_FLAGS, usesTE := false, contentLength := ULLONG_MAX)
  }

  /** The method guessed from the first letter of a request. */
  function FirstGuess(ch: char): Option<Method> {
    match ch
    case 'A' => Some(ACL) case 'B' => Some(BIND) case 'C' => Some(CONNECT) case 'D' => Some(DELETE)
    case 'G' => Some(GET) case 'H' => Some(HEAD) case 'L' => Some(LOCK) case 'M' => Some(MKCOL)
    case 'N' => Some(NOTIFY) case 'O' => Some(OPTIONS) case 'P' => Some(POST) case 'R' => Some(REPORT)
    case 'S' => Some(SUBSCRIBE) case 'T' => Some(TRACE) case 'U' => Some(UNLOCK)
    case _ => None
  }

  /** The table of second guesses: what a letter that does not fit the current guess turns it into. */
  function SecondGuess(m: Method, index: nat, ch: char): Option<Method> {
    match (m, index, ch)
    case (POST, 1, 'U') => Some(PUT)
    case (POST, 1, 'A') => Some(PATCH)
    case (POST, 1, 'R') => Some(PROPFIND)
    case (PUT, 2, 'R') => Some(PURGE)
    case (CONNECT, 1, 'H') => Some(CHECKOUT)
    case (CONNECT, 2, 'P') => Some(COPY)
    case (MKCOL, 1, 'O') => Some(MOVE)
    case (MKCOL, 1, 'E') => Some(MERGE)
    case (MKCOL, 1, '-') => Some(MSEARCH)
    case (MKCOL, 2, 'A') => Some(MKACTIVITY)
    case (MKCOL, 3, 'A') => Some(MKCALENDAR)
    case (SUBSCRIBE, 1, 'E') => Some(SEARCH)
    case (SUBSCRIBE, 1, 'O') => Some(SOURCE)
    case (REPORT, 2, 'B') => Some(REBIND)
    case (PROPFIND, 4, 'P') => Some(PROPPATCH)
    case (LOCK, 1, 'I') => Some(LINK)
    case (UNLOCK, 2, 'S') => Some(UNSUBSCRIBE)
    case (UNLOCK, 2, 'B') => Some(UNBIND)
    case (UNLOCK, 3, 'I') => Some(UNLINK)
    case _ => None
  }

  function StartRequest(p: Parser, ch: char): Outcome {
    if ch == CR || ch == LF then Next(p, [])
    else match FirstGuess(ch)
      case None => Fail(InvalidMethod, [])
      case Some(m) => Next(Cleared(p).(verb := m, index := 1, state := ReqMethod), [Notify(MessageBegin)])
  }

  function StartEither(p: Parser, ch: char): Outcome {
    if ch == CR || ch == LF then Next(p, [])
    else if ch == 'H' then Next(Cleared(p).(state := ResOrRespH), [Notify(MessageBegin)])
    else StartRequest(Cleared(p).(role := Request, state := StartReq), ch)
  }

  /** `index` counts in a 5-bit field. */
  function Bump(index: nat): nat { (index + 1) % 32 }

  function ReadMethod(p: Parser, ch: char): Outcome {
    var name := MethodString(p.verb);
    if ch == '\0' || p.index > |name| then Fail(InvalidMethod, [])
    else if ch == ' ' && p.index == |name| then Next(p.(index := Bump(p.index), state := ReqSpacesBeforeUrl), [])
    else if p.index < |name| && ch == name[p.index] then Next(p.(index := Bump(p.index)), [])
    else match SecondGuess(p.verb, p.index, ch)
      case None => Fail(InvalidMethod, [])
      case Some(m) => Next(p.(verb := m, index := Bump(p.index)), [])
  }

  // ----- First line -----

  /** `STRICT_CHECK`. */
  function Expect(p: Parser, ch: char, want: char, next: State): Outcome {
    if ch == want then Next(p.(state := next), []) else Fail(Strict, [])
  }

  function UrlByte(p: Parser, ch: char, first: bool): Outcome {
    var s := ParseUrlChar(p.state, ch);
    if s.Dead? then Fail(InvalidUrl, [])
    else Next(p.(state := s), if first then [Mark(Url), Take(Url)] else [Take(Url)])
  }

  function EndOfUrl(p: Parser, ch: char): Outcome {
    if ch == ' ' then Next(p.(state := ReqHttpStart), [Flush(Url)])
    else if ch == CR then Next(p.(major := 0, minor := 9, state := ReqLineAlmostDone), [Flush(Url)])
    else if ch == LF then Next(p.(major := 0, minor := 9, state := HeaderFieldStart), [Flush(Url)])
    else UrlByte(p, ch, false)
  }

  function StepRequestLine(p: Parser, ch: char): Outcome {
    match p.state
    case StartReq => StartRequest(p, ch)
    case ReqMethod => ReadMethod(p, ch)
    case ReqSpacesBeforeUrl =>
      if ch == ' ' then Next(p, [])
      else UrlByte(if p.verb.CONNECT? then p.(state := ReqServerStart) else p, ch, true)
    case ReqSchema => UrlByte(p, ch, false)
    case ReqSchemaSlash => UrlByte(p, ch, false)
    case ReqSchemaSlashSlash => UrlByte(p, ch, false)
    case ReqServerStart => UrlByte(p, ch, false)
    case _ => EndOfUrl(p, ch)
  }

  function StepVersion(p: Parser, ch: char): Outcome {
    match p.state
    case ReqHttpStart =>
      if ch == ' ' then Next(p, [])
      else if ch == 'H' then Next(p.(state := ReqHttpH), [])
      else if ch == 'I' && p.verb.SOURCE? then Next(p.(state := ReqHttpI), [])
      else Fail(InvalidConstant, [])
    case ReqHttpH => Expect(p, ch, 'T', ReqHttpHT)
    case ReqHttpHT => Expect(p, ch, 'T', ReqHttpHTT)
    case ReqHttpHTT => Expect(p, ch, 'P', ReqHttpHTTP)
    case ReqHttpI => Expect(p, ch, 'C', ReqHttpIC)
    case ReqHttpIC => Expect(p, ch, 'E', ReqHttpHTTP)
    case ReqHttpHTTP => Expect(p, ch, '/', ReqHttpMajor)
    case ReqHttpMajor =>
      if IsNum(ch) then Next(p.(major := Digit(ch), state := ReqHttpDot), []) else Fail(InvalidVersion, [])
    case ReqHttpDot => if ch == '.' then Next(p.(state := ReqHttpMinor), []) else Fail(InvalidVersion, [])
    case ReqHttpMinor =>
      if IsNum(ch) then Next(p.(minor := Digit(ch), state := ReqHttpEnd), []) else Fail(InvalidVersion, [])
    case ReqHttpEnd =>
      if ch == CR then Next(p.(state := ReqLineAlmostDone), [])
      else if ch == LF then Next(p.(state := HeaderFieldStart), [])
      else Fail(InvalidVersion, [])
    case _ => if ch == LF then Next(p.(state := HeaderFieldStart), []) else Fail(LfExpected, [])
  }

  function StepStatusLine(p: Parser, ch: char): Outcome {
    match p.state
    case ResOrRespH =>
      if ch == 'T' then Next(p.(role := Response, state := ResHT), [])
      else if ch == 'E' then Next(p.(role := Request, verb := HEAD, index := 2, state := ReqMethod), [])
      else Fail(InvalidConstant, [])
    case StartRes =>
      if ch == CR || ch == LF then Next(p, [])
      else if ch == 'H' then Next(Cleared(p).(state := ResH), [Notify(MessageBegin)])
      else Fail(InvalidConstant, [])
    case ResH => Expect(p, ch, 'T', ResHT)
    case ResHT => Expect(p, ch, 'T', ResHTT)
    case ResHTT => Expect(p, ch, 'P', ResHTTP)
    case ResHTTP => Expect(p, ch, '/', ResHttpMajor)
    case ResHttpMajor =>
      if IsNum(ch) then Next(p.(major := Digit(ch), state := ResHttpDot), []) else Fail(InvalidVersion, [])
    case ResHttpDot => if ch == '.' then Next(p.(state := ResHttpMinor), []) else Fail(InvalidVersion, [])
    case ResHttpMinor =>
      if IsNum(ch) then Next(p.(minor := Digit(ch), state := ResHttpEnd), []) else Fail(InvalidVersion, [])
    case ResHttpEnd => if ch == ' ' then Next(p.(state := ResFirstStatusCode), []) else Fail(InvalidVersion, [])
    case ResFirstStatusCode =>
      if IsNum(ch) then Next(p.(status := Digit(ch), state := ResStatusCode), [])
      else if ch == ' ' then Next(p, []) else Fail(InvalidStatus, [])
    case ResStatusCode =>
      if IsNum(ch) then
        var code := p.status * 10 + Digit(ch);
        if code > 999 then Fail(InvalidStatus, []) else Next(p.(status := code), [])
      else if ch == ' ' then Next(p.(state := ResStatusStart), [])
      else if ch == CR || ch == LF then StartStatus(p, ch)
      else Fail(InvalidStatus, [])
    case ResStatusStart => StartStatus(p, ch)
    case ResLineAlmostDone => Expect(p, ch, LF, HeaderFieldStart)
    case _ => StatusByte(p, ch)
  }

  /** `s_res_status_start`; at a line end it re-executes in `s_res_status`. */
  function StartStatus(p: Parser, ch: char): Outcome {
    var q := p.(state := ResStatus, index := 0);
    if ch == CR || ch == LF then Prefix([Mark(Status)], StatusByte(q, ch))
    else Next(q, [Mark(Status), Take(Status)])
  }

  function StatusByte(p: Parser, ch: char): Outcome {
    if ch == CR then Next(p.(state := ResLineAlmostDone), [Flush(Status)])
    else if ch == LF then Next(p.(state := HeaderFieldStart), [Flush(Status)])
    else Next(p, [Take(Status)])
  }

  // ----- Header fields -----

  /** The names and tokens the header machine looks for. */
  function Wanted(hs: HeaderState): string {
    match hs
    case MatchingConnection => "connection"
    case MatchingProxyConnection => "proxy-connection"
    case MatchingContentLength => "content-length"
    case MatchingTransferEncoding => "transfer-encoding"
    case MatchingUpgrade => "upgrade"
    case TeMatchingChunked => "chunked"
    case ConnMatchingKeepAlive => "keep-alive"
    case ConnMatchingClose => "close"
    case ConnMatchingUpgrade => "upgrade"
    case _ => ""
  }

  /** What the header machine changes at one byte. */
  datatype Scan = Scan(headerState: HeaderState, index: nat)

  /** One letter of a wanted word: `miss` when it does not fit, `hit` when it is the last one. */
  function MatchLetter(hs: HeaderState, index: nat, c: char, hit: HeaderState, miss: HeaderState): Scan {
    var i := Bump(index);
    var word := Wanted(hs);
    if i >= |word| || c != word[i] then Scan(miss, i)
    else if i == |word| - 1 then Scan(hit, i)
    else Scan(hs, i)
  }

  function FirstFieldState(c: char): HeaderState {
    if c == 'c' then HC
    else if c == 'p' then MatchingProxyConnection
    else if c == 't' then MatchingTransferEncoding
    else if c == 'u' then MatchingUpgrade
    else General
  }

  /** One token character of a field name, lower-cased. */
  function FieldScan(hs: HeaderState, index: nat, c: char): Scan {
    match hs
    case HC => Scan(if c == 'o' then HCO else General, Bump(index))
    case HCO => Scan(if c == 'n' then HCON else General, Bump(index))
    case HCON =>
      Scan(if c == 'n' then MatchingConnection else if c == 't' then MatchingContentLength else General, Bump(index))
    case MatchingConnection => MatchLetter(hs, index, c, Connection, General)
    case MatchingProxyConnection => MatchLetter(hs, index, c, Connection, General)
    case MatchingContentLength => MatchLetter(hs, index, c, ContentLength, General)
    case MatchingTransferEncoding => MatchLetter(hs, index, c, TransferEncoding, General)
    case MatchingUpgrade => MatchLetter(hs, index, c, Upgrade, General)
    case _ => Scan(General, index)
  }

  /** The record after one token character; a full `transfer-encoding` sets the field even when
      more letters follow. */
  function FieldLetter(p: Parser, ch: char): Parser
    requires IsToken(ch)
  {
    var s := FieldScan(p.headerState, p.index, Token(ch));
    p.(headerState := s.headerState, index := s.index, usesTE := p.usesTE || s.headerState.TransferEncoding?)
  }

  function FieldByte(p: Parser, ch: char): Outcome {
    if IsToken(ch) then Next(FieldLetter(p, ch), [Take(HeaderFieldData)])
    else if ch == ':' then Next(p.(state := HeaderValueDiscardWs), [Flush(HeaderFieldData)])
    else Fail(InvalidHeaderToken, [])
  }

  function FieldStart(p: Parser, ch: char): Outcome {
    if ch == CR then Next(p.(state := HeadersAlmostDone), [])
    else if ch == LF then EndOfHeaders(p.(state := HeadersAlmostDone), ch)
    else if IsToken(ch) then
      Next(p.(index := 0, state := HeaderField, headerState := FirstFieldState(Token(ch))),
           [Mark(HeaderFieldData), Take(HeaderFieldData)])
    else Fail(InvalidHeaderToken, [])
  }

  // ----- Header values -----

  /** The header state at the first byte of a value line; `c` is that byte with its 0x20 bit set. */
  function FirstValueState(hs: HeaderState, c: char): HeaderState {
    match hs
    case TransferEncoding => if c == 'c' then TeMatchingChunked else TeToken
    case Connection =>
      if c == 'k' then ConnMatchingKeepAlive
      else if c == 'c' then ConnMatchingClose
      else if c == 'u' then ConnMatchingUpgrade
      else ConnToken
    case TeTokenStart | ConnTokenStart | ContentLengthWs => hs
    case _ => General
  }

  function ValueStart(p: Parser, ch: char): Outcome {
    if p.headerState.ContentLength? then LengthStart(p, ch)
    else Next(p.(state := HeaderValue, index := 0,
                 flags := if p.headerState.Upgrade? then p.flags.(upgrade := true) else p.flags,
                 headerState := FirstValueState(p.headerState, Lower(ch))),
              [Mark(HeaderValueData), Take(HeaderValueData)])
  }

  /** The first digit of a `Content-Length`, which a message may have once. */
  function LengthStart(p: Parser, ch: char): Outcome {
    if !IsNum(ch) then Fail(InvalidContentLength, [])
    else if p.flags.contentLength then Fail(UnexpectedContentLength, [])
    else Next(p.(state := HeaderValue, index := 0, flags := p.flags.(contentLength := true),
                 contentLength := Digit(ch), headerState := ContentLengthNum),
              [Mark(HeaderValueData), Take(HeaderValueData)])
  }

  function TokenStart(hs: HeaderState, c: char): HeaderState {
    if hs.TeTokenStart? && c == 'c' then TeMatchingChunked
    else if hs.ConnTokenStart? && c == 'k' then ConnMatchingKeepAlive
    else if hs.ConnTokenStart? && c == 'c' then ConnMatchingClose
    else if hs.ConnTokenStart? && c == 'u' then ConnMatchingUpgrade
    else if IsToken(c) then (if hs.TeTokenStart? then TeToken else ConnToken)
    else if c == ' ' || c == '\t' then hs
    else General
  }

  /** One byte of a value outside `Content-Length`; `c` is the byte with its 0x20 bit set. */
  function ValueScan(hs: HeaderState, index: nat, ch: char): Scan {
    var c := Lower(ch);
    match hs
    case TeTokenStart => Scan(TokenStart(hs, c), index)
    case ConnTokenStart => Scan(TokenStart(hs, c), index)
    case TeMatchingChunked => MatchLetter(hs, index, c, TeChunked, TeToken)
    case ConnMatchingKeepAlive => MatchLetter(hs, index, c, ConnKeepAlive, ConnToken)
    case ConnMatchingClose => MatchLetter(hs, index, c, ConnClose, ConnToken)
    case ConnMatchingUpgrade => MatchLetter(hs, index, c, ConnUpgrade, ConnToken)
    case TeToken => if ch == ',' then Scan(TeTokenStart, 0) else Scan(hs, index)
    case ConnToken => if ch == ',' then Scan(ConnTokenStart, 0) else Scan(hs, index)
    case TeChunked => Scan(if ch == ' ' then hs else TeToken, index)
    case ConnKeepAlive => ConnectionWordEnd(hs, index, ch)
    case ConnClose => ConnectionWordEnd(hs, index, ch)
    case ConnUpgrade => ConnectionWordEnd(hs, index, ch)
    case _ => Scan(General, index)
  }

  function ConnectionWordEnd(hs: HeaderState, index: nat, ch: char): Scan {
    if ch == ',' then Scan(ConnTokenStart, 0) else if ch == ' ' then Scan(hs, index) else Scan(ConnToken, index)
  }

  /** The flag a header state stands for once its element, or the whole header, has ended. */
  function Commit(f: Flags, hs: HeaderState): Flags {
    match hs
    case ConnKeepAlive => f.(keepAlive := true)
    case ConnClose => f.(close := true)
    case ConnUpgrade => f.(connUpgrade := true)
    case TeChunked => f.(chunked := true)
    case _ => f
  }

  predicate IsConnectionWord(hs: HeaderState) { hs.ConnKeepAlive? || hs.ConnClose? || hs.ConnUpgrade? }

  predicate InContentLength(hs: HeaderState) {
    hs.ContentLength? || hs.ContentLengthNum? || hs.ContentLengthWs?
  }

  /** The record after one value byte, or `None` for a byte that `Content-Length` does not allow. */
  function ValueLetter(p: Parser, ch: char): Option<Parser> {
    if InContentLength(p.headerState) then
      if ch == ' ' then Some(if p.headerState.ContentLengthNum? then p.(headerState := ContentLengthWs) else p)
      else if p.headerState.ContentLengthWs? || !IsNum(ch) || (ULLONG_MAX - 10) / 10 < p.contentLength then None
      else Some(p.(headerState := ContentLengthNum, contentLength := p.contentLength * 10 + Digit(ch)))
    else
      var s := ValueScan(p.headerState, p.index, ch);
      var f := if IsConnectionWord(p.headerState) && ch == ',' then Commit(p.flags, p.headerState) else p.flags;
      Some(p.(headerState := s.headerState, index := s.index, flags := f))
  }

  function ValueByte(p: Parser, ch: char): Outcome {
    if ch == CR then Next(p.(state := HeaderAlmostDone), [Flush(HeaderValueData)])
    else if ch == LF then Next(p.(state := HeaderValueLws), [Flush(HeaderValueData)])
    else if !IsHeaderChar(ch) then Fail(InvalidHeaderToken, [])
    else match ValueLetter(p, ch)
      case None => Fail(InvalidContentLength, [])
      case Some(q) => Next(q, [Take(HeaderValueData)])
  }

  predicate IsBlank(ch: char) { ch == ' ' || ch == '\t' }

  /** `s_header_value_lws`: a blank folds the header, anything else ends it. */
  function AfterValueLine(p: Parser, ch: char): Outcome {
    if IsBlank(ch) then
      ValueStart(if p.headerState.ContentLengthNum? then p.(headerState := ContentLengthWs) else p, ch)
    else FieldStart(p.(flags := Commit(p.flags, p.headerState), state := HeaderFieldStart), ch)
  }

  /** `s_header_value_discard_lws`: an empty value, unless the line is folded. */
  function AfterEmptyLine(p: Parser, ch: char): Outcome {
    if IsBlank(ch) then Next(p.(state := HeaderValueDiscardWs), [])
    else if p.headerState.ContentLength? then Fail(InvalidContentLength, [])
    else Prefix([Mark(HeaderValueData), Flush(HeaderValueData)],
                FieldStart(p.(flags := Commit(p.flags, p.headerState), state := HeaderFieldStart), ch))
  }

  // ----- End of the headers -----

  /** `s_headers_almost_done`, which re-executes in `s_headers_done` or, after a trailer, in `s_message_done`. */
  function EndOfHeaders(p: Parser, ch: char): Outcome {
    if ch != LF then Fail(Strict, [])
    else if p.flags.trailing then Prefix([Notify(ChunkComplete)], MessageDone(p))
    else if p.usesTE && p.flags.contentLength then Fail(UnexpectedContentLength, [])
    else
      var up := if p.flags.upgrade && p.flags.connUpgrade then p.role.Request? || p.status == 101
                else p.verb.CONNECT?;
      Prefix([Notify(HeadersComplete(p.verb, p.major, p.minor))], HeadersDone(p.(upgrade := up)))
  }

  predicate HasBody(p: Parser) { p.flags.chunked || (0 < p.contentLength && p.contentLength != ULLONG_MAX) }

  /** `s_headers_done`: how the body is framed. */
  function HeadersDone(p: Parser): Outcome {
    var q := p.(nread := 0);
    var done := q.(state := NewMessage(q));
    if p.upgrade && (p.verb.CONNECT? || !HasBody(p)) then Exit(done, [Notify(MessageComplete)])
    else if p.flags.chunked then Next(q.(state := ChunkSizeStart), [])
    else if p.usesTE then
      if p.role.Request? then Fail(InvalidTransferEncoding, []) else Next(q.(state := BodyIdentityEof), [])
    else if p.contentLength == 0 then Next(done, [Notify(MessageComplete)])
    else if p.contentLength != ULLONG_MAX then Next(q.(state := BodyIdentity), [])
    else if !NeedsEof(p) then Next(done, [Notify(MessageComplete)])
    else Next(q.(state := BodyIdentityEof), [])
  }

  function StepHeaders(p: Parser, ch: char): Outcome {
    match p.state
    case HeaderFieldStart => FieldStart(p, ch)
    case HeaderField => FieldByte(p, ch)
    case HeaderValueDiscardWs =>
      if IsBlank(ch) then Next(p, [])
      else if ch == CR then Next(p.(state := HeaderValueDiscardWsAlmostDone), [])
      else if ch == LF then Next(p.(state := HeaderValueDiscardLws), [])
      else ValueStart(p, ch)
    case HeaderValueDiscardWsAlmostDone => Expect(p, ch, LF, HeaderValueDiscardLws)
    case HeaderValueDiscardLws => AfterEmptyLine(p, ch)
    case HeaderValue => ValueByte(p, ch)
    case HeaderAlmostDone => if ch == LF then Next(p.(state := HeaderValueLws), []) else Fail(LfExpected, [])
    case HeaderValueLws => AfterValueLine(p, ch)
    case _ => EndOfHeaders(p, ch)
  }

  // ----- Body -----

  function StepBody(p: Parser, ch: char): Outcome {
    match p.state
    case ChunkSizeStart =>
      if IsHex(ch) then Next(p.(contentLength := Unhex(ch), state := ChunkSize), []) else Fail(InvalidChunkSize, [])
    case ChunkSize =>
      if ch == CR then Next(p.(state := ChunkSizeAlmostDone), [])
      else if !IsHex(ch) then
        (if ch == ';' || ch == ' ' then Next(p.(state := ChunkParameters), []) else Fail(InvalidChunkSize, []))
      else if (ULLONG_MAX - 16) / 16 < p.contentLength then Fail(InvalidContentLength, [])
      else Next(p.(contentLength := p.contentLength * 16 + Unhex(ch)), [])
    case ChunkParameters =>
      if ch == CR then Next(p.(state := ChunkSizeAlmostDone), []) else Next(p, [])
    case ChunkSizeAlmostDone =>
      if ch != LF then Fail(Strict, [])
      else if p.contentLength == 0 then
        Next(p.(nread := 0, flags := p.flags.(trailing := true), state := HeaderFieldStart), [Notify(ChunkHeader(0))])
      else Next(p.(nread := 0, state := ChunkData), [Notify(ChunkHeader(p.contentLength))])
    case ChunkData => BodyByte(p, if p.contentLength == 1 then ChunkDataAlmostDone else ChunkData)
    case ChunkDataAlmostDone => if ch == CR then Next(p.(state := ChunkDataDone), [Flush(Body)]) else Fail(Strict, [])
    case ChunkDataDone =>
      if ch == LF then Next(p.(nread := 0, state := ChunkSizeStart), [Notify(ChunkComplete)]) else Fail(Strict, [])
    case BodyIdentity =>
      if p.contentLength == 1 then
        Prefix([Mark(Body), Take(Body), Flush(Body)], MessageDone(p.(contentLength := 0)))
      else BodyByte(p, BodyIdentity)
    case _ => Next(p, [Mark(Body), Take(Body)])
  }

  function BodyByte(p: Parser, next: State): Outcome {
    Next(p.(contentLength := if p.contentLength == 0 then 0 else p.contentLength - 1, state := next),
         [Mark(Body), Take(Body)])
  }

  // ----- The switch -----

  datatype Part = StartPart | RequestLinePart | VersionPart | StatusLinePart | HeaderPart | BodyPart

  function PartOf(s: State): Part {
    match s
    case Dead | StartReqOrRes => StartPart
    case ResOrRespH | StartRes | ResH | ResHT | ResHTT | ResHTTP | ResHttpMajor | ResHttpDot | ResHttpMinor
       | ResHttpEnd | ResFirstStatusCode | ResStatusCode | ResStatusStart | ResStatus | ResLineAlmostDone =>
      StatusLinePart
    case HeaderFieldStart | HeaderField | HeaderValueDiscardWs | HeaderValueDiscardWsAlmostDone
       | HeaderValueDiscardLws | HeaderValue | HeaderValueLws | HeaderAlmostDone | HeadersAlmostDone => HeaderPart
    case ChunkSizeStart | ChunkSize | ChunkParameters | ChunkSizeAlmostDone | ChunkData | ChunkDataAlmostDone
       | ChunkDataDone | BodyIdentity | BodyIdentityEof => BodyPart
    case ReqHttpStart | ReqHttpH | ReqHttpHT | ReqHttpHTT | ReqHttpHTTP | ReqHttpI | ReqHttpIC | ReqHttpMajor
       | ReqHttpDot | ReqHttpMinor | ReqHttpEnd | ReqLineAlmostDone => VersionPart
    case _ => RequestLinePart
  }

  function Dispatch(p: Parser, ch: char): Outcome {
    match PartOf(p.state)
    case StartPart =>
      if p.state.StartReqOrRes? then StartEither(p, ch)
      else if ch == CR || ch == LF then Next(p, []) else Fail(ClosedConnection, [])
    case RequestLinePart => StepRequestLine(p, ch)
    case VersionPart => StepVersion(p, ch)
    case StatusLinePart => StepStatusLine(p, ch)
    case HeaderPart => StepHeaders(p, ch)
    case BodyPart => StepBody(p, ch)
  }

  /** One byte, counted against the header limit `max` when the state says so. */
  function Step(max: nat, p: Parser, ch: char): Outcome {
    if !ParsingHeader(p.state) then Dispatch(p, ch)
    else if p.nread + 1 > max then Fail(HeaderOverflow, [])
    else Dispatch(p.(nread := p.nread + 1), ch)
  }
}
