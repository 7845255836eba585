/** The assertions inside `http_parser_execute`, over every reachable record. The one on the marks is met where the
    marks are: in `HttpParsers.HttpParser.FlushMarks`. */
module InternalAssertions {
  import opened Bytes
  import opened ParserTypes
  import opened ParserInvariant
  import opened ParserRun
  import opened ParserSegments

  /** What the source asserts when the next byte is handled in this state. */
  predicate Asserts(p: Parser) {
    match p.state
    case HeaderField =>
      p.headerState.General? || p.headerState.HC? || p.headerState.HCO? || p.headerState.HCON?
      || p.headerState.MatchingConnection? || p.headerState.MatchingProxyConnection?
        || p.headerState.MatchingContentLength?
      || p.headerState.MatchingTransferEncoding? || p.headerState.MatchingUpgrade? || p.headerState.Connection?
      || p.headerState.ContentLength? || p.headerState.TransferEncoding? || p.headerState.Upgrade?
    case HeaderValue => !p.headerState.Connection? && !p.headerState.TransferEncoding?
    case BodyIdentity => p.contentLength != 0 && p.contentLength != ULLONG_MAX
    case ChunkSizeStart => p.nread + 1 == 1 && p.flags.chunked
    case ChunkSize | ChunkParameters | ChunkSizeAlmostDone | ChunkDataDone => p.flags.chunked
    case ChunkData => p.flags.chunked && p.contentLength != 0 && p.contentLength != ULLONG_MAX
    case ChunkDataAlmostDone => p.flags.chunked && p.contentLength == 0
    case _ => true
  }

  lemma GoodAsserts(max: nat, p: Parser)
    requires Good(max, p)
    ensures Asserts(p)
  {
  }

  lemma {:induction false} BuffersKeep(max: nat, p: Parser, log: seq<Event>, bufs: seq<string>)
    requires Good(max, p)
    ensures
      match ExecutedAll(max, p, log, bufs)
      case Running(q, _) => Good(max, q)
      case Exited(_, q, _) => Good(max, q)
      case Failed(_, _, _) => true
    decreases |bufs|
  {
    hide RunFrom, Good;
    if bufs != [] {
      RunKeeps(max, p, Entry(p, log), bufs[0], 0);
      var r := Executed(max, p, log, bufs[0]);
      if r.Running? { BuffersKeep(max, r.parser, r.tape.log, bufs[1..]); }
    }
  }

  /** No assertion fails: before every byte, of any input in any buffers, the assertions of the state hold. */
  lemma AssertionsHold(max: nat, role: Role, bufs: seq<string>)
    ensures
      match ExecutedAll(max, Init(role), [], bufs)
      case Running(q, _) => Asserts(q)
      case Exited(_, q, _) => Asserts(q)
      case Failed(_, _, _) => true
  {
    hide ExecutedAll, Good, Asserts;
    InitGood(max, role);
    BuffersKeep(max, Init(role), [], bufs);
    match ExecutedAll(max, Init(role), [], bufs)
    case Running(q, _) => GoodAsserts(max, q);
    case Exited(_, q, _) => GoodAsserts(max, q);
    case Failed(_, _, _) =>
  }

  /** The same inside one call: the record before byte `k` is the record after the first `k` bytes. */
  lemma AssertsInside(max: nat, p: Parser, t: Tape, data: string, k: nat)
    requires Good(max, p) && k <= |data|
    ensures
      match RunFrom(max, p, t, data[..k], 0)
      case Running(q, u) =>
        Asserts(q) && RunFrom(max, p, t, data, 0) == Shift(k, RunFrom(max, q, u, data[k..], 0))
      case r => RunFrom(max, p, t, data, 0) == r
  {
    hide RunFrom, Good, Asserts;
    RunKeeps(max, p, t, data[..k], 0);
    assert data == data[..k] + data[k..];
    RunConcat(max, p, t, data[..k], data[k..], 0);
    var r := RunFrom(max, p, t, data[..k], 0);
    if r.Running? {
      GoodAsserts(max, r.parser);
      Follow(max, p, t, data[..k], r.parser, r.tape, data[k..]);
    }
  }
}
