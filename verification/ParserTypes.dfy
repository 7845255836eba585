/** The record `struct http_parser`, its enumerations, and the callbacks it makes. */
module ParserTypes {
  datatype Role = Request | Response | Both

  datatype State =
    | Dead
    | StartReqOrRes | ResOrRespH
    | StartRes | ResH | ResHT | ResHTT | ResHTTP | ResHttpMajor | ResHttpDot | ResHttpMinor | ResHttpEnd
    | ResFirstStatusCode | ResStatusCode | ResStatusStart | ResStatus | ResLineAlmostDone
    | StartReq
    | ReqMethod | ReqSpacesBeforeUrl
    | ReqSchema | ReqSchemaSlash | ReqSchemaSlashSlash | ReqServerStart | ReqServer | ReqServerWithAt
    | ReqPath | ReqQueryStringStart | ReqQueryString | ReqFragmentStart | ReqFragment
    | ReqHttpStart | ReqHttpH | ReqHttpHT | ReqHttpHTT | ReqHttpHTTP | ReqHttpI | ReqHttpIC
    | ReqHttpMajor | ReqHttpDot | ReqHttpMinor | ReqHttpEnd | ReqLineAlmostDone
    | HeaderFieldStart | HeaderField
    | HeaderValueDiscardWs | HeaderValueDiscardWsAlmostDone | HeaderValueDiscardLws
    | HeaderValue | HeaderValueLws | HeaderAlmostDone
    | ChunkSizeStart | ChunkSize | ChunkParameters | ChunkSizeAlmostDone
    | HeadersAlmostDone
    | ChunkData | ChunkDataAlmostDone | ChunkDataDone
    | BodyIdentity | BodyIdentityEof

  /** `PARSING_HEADER`: the states whose bytes count against the header limit. */
  predicate ParsingHeader(s: State) {
    !(s.ChunkData? || s.ChunkDataAlmostDone? || s.ChunkDataDone? || s.BodyIdentity? || s.BodyIdentityEof?)
  }

  datatype HeaderState =
    | General | HC | HCO | HCON
    | MatchingConnection | MatchingProxyConnection | MatchingContentLength
    | MatchingTransferEncoding | MatchingUpgrade
    | Connection | ContentLength | ContentLengthNum | ContentLengthWs | TransferEncoding | Upgrade
    | TeTokenStart | TeMatchingChunked | TeToken
    | ConnTokenStart | ConnMatchingKeepAlive | ConnMatchingClose | ConnMatchingUpgrade | ConnToken
    | TeChunked | ConnKeepAlive | ConnClose | ConnUpgrade

  datatype Method =
    | DELETE | GET | HEAD | POST | PUT | CONNECT | OPTIONS | TRACE
    | COPY | LOCK | MKCOL | MOVE | PROPFIND | PROPPATCH | SEARCH | UNLOCK | BIND | REBIND | UNBIND | ACL
    | REPORT | MKACTIVITY | CHECKOUT | MERGE
    | MSEARCH | NOTIFY | SUBSCRIBE | UNSUBSCRIBE
    | PATCH | PURGE | MKCALENDAR | LINK | UNLINK | SOURCE

  /** `method_strings`. */
  function MethodString(m: Method): string {
    match m
    case DELETE => "DELETE" case GET => "GET" case HEAD => "HEAD" case POST => "POST" case PUT => "PUT"
    case CONNECT => "CONNECT" case OPTIONS => "OPTIONS" case TRACE => "TRACE" case COPY => "COPY"
    case LOCK => "LOCK" case MKCOL => "MKCOL" case MOVE => "MOVE" case PROPFIND => "PROPFIND"
    case PROPPATCH => "PROPPATCH" case SEARCH => "SEARCH" case UNLOCK => "UNLOCK" case BIND => "BIND"
    case REBIND => "REBIND" case UNBIND => "UNBIND" case ACL => "ACL" case REPORT => "REPORT"
    case MKACTIVITY => "MKACTIVITY" case CHECKOUT => "CHECKOUT" case MERGE => "MERGE"
    case MSEARCH => "M-SEARCH" case NOTIFY => "NOTIFY" case SUBSCRIBE => "SUBSCRIBE"
    case UNSUBSCRIBE => "UNSUBSCRIBE" case PATCH => "PATCH" case PURGE => "PURGE"
    case MKCALENDAR => "MKCALENDAR" case LINK => "LINK" case UNLINK => "UNLINK" case SOURCE => "SOURCE"
  }

  datatype Errno =
    | Ok
    | InvalidEofState | HeaderOverflow | ClosedConnection | InvalidVersion | InvalidStatus | InvalidMethod
    | InvalidUrl | LfExpected | InvalidHeaderToken | InvalidContentLength | UnexpectedContentLength
    | InvalidChunkSize | InvalidConstant | Strict | InvalidTransferEncoding

  datatype Flags = Flags(
    chunked: bool, keepAlive: bool, close: bool, connUpgrade: bool,
    trailing: bool, upgrade: bool, contentLength: bool)

  const NO_FLAGS := Flags(false, false, false, false, false, false, false)

  datatype Parser = Parser(
    role: Role, flags: Flags, state: State, headerState: HeaderState, index: nat,
    usesTE: bool, nread: nat, contentLength: nat,
    major: nat, minor: nat, status: nat, verb: Method, upgrade: bool)

  /** `http_parser_init`. */
  function Init(role: Role): Parser {
    Parser(role, NO_FLAGS,
           if role.Request? then StartReq else if role.Response? then StartRes else StartReqOrRes,
           General, 0, false, 0, 0, 0, 0, 0, DELETE, false)
  }

  datatype Kind = Url | HeaderFieldData | HeaderValueData | Body | Status

  /** One callback: a run of bytes of one kind, or a notification with what its handler may read. */
  datatype Event =
    | Data(kind: Kind, bytes: string)
    | MessageBegin
    | HeadersComplete(verb: Method, major: nat, minor: nat)
    | ChunkHeader(length: nat)
    | ChunkComplete
    | MessageComplete

  /** What one byte does besides changing the record: `Mark` starts a run at this byte unless one is
      open, `Take` says the byte belongs to the open run, `Flush` ends the run, `Notify` calls back. */
  datatype Action = Mark(kind: Kind) | Take(kind: Kind) | Flush(kind: Kind) | Notify(event: Event)

  datatype Outcome =
    | Next(parser: Parser, actions: seq<Action>)
    | Exit(parser: Parser, actions: seq<Action>)
    | Fail(error: Errno, actions: seq<Action>)
}
