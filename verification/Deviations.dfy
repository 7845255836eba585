/** Requests on which the code does something else than its comments and its header file promise. */
module Deviations {
  import opened Bytes
  import opened ParserTypes
  import opened ParserStep
  import opened ParserRun
  import opened ParserBatches
  import opened ParserProgress
  import opened ParserReports
  import opened ParserSegments
  import opened Lengths
  import opened HeaderNames
  import opened HttpRequests
  import opened HeaderLineRuns
  import opened HeaderTokens
  import opened HeaderElements
  import opened RoundTrip

  const PLAIN := FRESH.(verb := Some(GET), path := "/", version := "1.1")

  const FIRST_LINE := "GET / HTTP/1.1\r\n"

  lemma PlainLineIs()
    ensures RequestLine(PLAIN) == FIRST_LINE && |FIRST_LINE| == 16 && PathOk(PLAIN.path) && VersionOk(PLAIN.version)
    ensures Digit('1') == 1
  {
    assert UrlState("/") == ReqPath by { assert UrlState("/"[..0]) == ReqSpacesBeforeUrl; }
    assert RequestLine(PLAIN) == "GET" + " " + "/" + " " + "" + "" + "" + "" + "HTTP/" + "1.1" + "\r\n";
  }

  /** The record after the first line, which counts 16 bytes. */
  function AfterFirst(): Parser {
    Init(Role.Request).(contentLength := ULLONG_MAX, verb := GET, index := 4, nread := 16, state := HeaderFieldStart,
                        major := 1, minor := 1)
  }

  const FIRST_LOG := [MessageBegin, Data(Url, "/")]

  lemma FirstLineLeads(max: nat)
    requires 16 <= max
    ensures Leads(max, Init(Role.Request), Tape([], false), FIRST_LINE, AfterFirst(), Tape(FIRST_LOG, false))
  {
    hide Leads, RequestLine, PathOk;
    PlainLineIs();
    RequestLineLeads(max, PLAIN);
  }

  // ----- A limit that is not reported -----

  /** A header value of 22 letters and a control character. */
  const LONG_VALUE := "xxxxxxxxxxxxxxxxxxxxxx\U{01}"

  /** The record after the first letter of the value. */
  function InLongValue(): Parser {
    var p := NameRead(AfterFirst(), "A");
    p.(state := HeaderValue, index := 0, headerState := General, nread := 19)
  }

  lemma LongValueBegins(data: string)
    requires data == FIRST_LINE + "A:" + LONG_VALUE
    ensures
      var u := Tape(FIRST_LOG + [Data(HeaderFieldData, "A")] + [Data(HeaderValueData, "x")], true);
      InLongValue().nread == 19
      && Watched(20, Init(Role.Request), Tape([], false), data, 0, None)
        == Watched(20, InLongValue(), u, data, 19, None)
  {
    hide Leads, Watched, NameRead, RunFrom, ApplyAll, Step, FieldSays, FieldFold;
    var p, t, v := AfterFirst(), Tape([], false), Tape(FIRST_LOG + [Data(HeaderFieldData, "A")], false);
    FirstLineLeads(20);
    NameReadPlain(p, "A");
    var q := NameRead(p, "A");
    NameLeads(20, p, FIRST_LOG, "A");
    assert "A" + ":" == "A:";
    Join(20, Init(Role.Request), t, FIRST_LINE, p, Tape(FIRST_LOG, false), "A:", q, v);
    LeadsRuns(20, Init(Role.Request), t, FIRST_LINE + "A:", q, v);
    WatchConcat(20, Init(Role.Request), t, FIRST_LINE + "A:", LONG_VALUE, 0, None);
    HarmlessValue(q, 'x');
    HarmlessIsNoLength(q.headerState);
    ValueFirst(20, q, 'x');
    assert data[18] == 'x' && |FIRST_LINE + "A:"| == 18;
    WatchNext(20, q, v, data, 18, None, InLongValue(), [Mark(HeaderValueData), Take(HeaderValueData)]);
    TakeTape(v.log, HeaderValueData, "", 'x');
  }

  lemma LeadsRuns(max: nat, p: Parser, t: Tape, w: string, q: Parser, u: Tape)
    requires Leads(max, p, t, w, q, u)
    ensures RunFrom(max, p, t, w, 0) == Running(q, u)
  {
  }

  lemma LongValueBytes(data: string)
    requires data == FIRST_LINE + "A:" + LONG_VALUE
    ensures |data| == 41 && data[40] == '\U{01}' && forall k :: 18 <= k < 40 ==> data[k] == 'x'
    ensures ValueChar('x') && !IsHeaderChar('\U{01}')
  {
    assert forall k :: 18 <= k < 41 ==> data[k] == LONG_VALUE[k - 18];
  }

  /** The loop over the value inspects 20 bytes, skips one, and runs into the control character. */
  lemma LongValueEnds(data: string)
    requires data == FIRST_LINE + "A:" + LONG_VALUE
    ensures ValueEnd(20, InLongValue(), data, 19) == 40 && EndError(data, 40) == InvalidHeaderToken
    ensures ValueFold(InLongValue(), data, 19, 21).Some?
  {
    hide IsHeaderChar, ValueLetter, InLongValue, FirstStop;
    var v := InLongValue();
    ValueIsGeneral();
    LongValueBytes(data);
    GeneralIs(v, data, 19);
    var n := FirstStop(20, data, 19, 19);
    assert Inspected(20, 19, 40);
    assert !(n < 40) && !(40 < n);
    GeneralStays(v, data[19]);
    GeneralStays(v, data[20]);
    assert ValueFold(v, data, 21, 21) == Some(v);
    assert ValueFold(v, data, 20, 21) == Some(v);
  }

  lemma ValueIsGeneral()
    ensures var v := InLongValue(); v.state.HeaderValue? && v.headerState.General? && v.nread == 19
  {
    hide NameRead;
  }

  /** With a limit of 20 bytes this request passes the limit in its header value. The call does not say so: it skips
      byte 39 and reports the control character at byte 40. */
  lemma LimitIsHidden()
    ensures
      var data := FIRST_LINE + "A:" + LONG_VALUE;
      Overflows(Executed(20, Init(Role.Request), [], data))
      && Reported(20, Init(Role.Request), [], data).Failed?
      && Reported(20, Init(Role.Request), [], data).error == InvalidHeaderToken
      && Reported(20, Init(Role.Request), [], data).count == 40
      && !Inspected(20, 19, 39)
  {
    hide RunFrom, InLongValue, ValueEnd, EndError, ValueFold, FailingBatch;
    var data := FIRST_LINE + "A:" + LONG_VALUE;
    var u := Tape(FIRST_LOG + [Data(HeaderFieldData, "A")] + [Data(HeaderValueData, "x")], true);
    var b := Batch(19, InLongValue(), u);
    LongValueBytes(data);
    LongValueBegins(data);
    LongValueEnds(data);
    ValueIsGeneral();
    OpenBatch(20, InLongValue(), u, data, 19);
    ValueRun(20, InLongValue(), u, data, 19, 21, b);
    ValueReport(20, b, data);
  }

  // ----- A name that only starts with `transfer-encoding` -----

  /** A request with one header whose name has `transfer-encoding` as a mere prefix is refused for a transfer encoding
      that it does not have. */
  lemma PrefixIsRefused(max: nat, h: Header)
    requires AllTokens(h.name) && "transfer-encoding" < FoldAll(h.name) && PlainValue(h.value)
    requires 16 + |h.name| + |h.value| + 5 <= max
    ensures
      var data := FIRST_LINE + HeaderLine(h.name, h.value) + "\r\n";
      Executed(max, Init(Role.Request), [], data)
      == Failed(|data| - 1, InvalidTransferEncoding,
                Tape(FIRST_LOG + EventsOf(h) + [HeadersComplete(GET, 1, 1)], false))
  {
    hide RunFrom, LeadsToLine, HeaderLine, AllTokens, FoldAll, PlainValue, IsBlank, EventsOf, Leads;
    var t := Tape([], false);
    var p, line := AfterFirst(), HeaderLine(h.name, h.value);
    LongerNames(FoldAll(h.name));
    FirstLineLeads(max);
    LineDoneFirst(max, Init(Role.Request), t, FIRST_LINE, p, Tape(FIRST_LOG, false));
    var q := PlainLine(max, p, FIRST_LOG, h);
    NameStarts(h.name, h.value);
    LineLength(h.name, h.value);
    JoinLines(max, Init(Role.Request), t, FIRST_LINE, p, Tape(FIRST_LOG, false), line, q,
              Tape(FIRST_LOG + EventsOf(h), false));
    NotBlank();
    var u := Tape(FIRST_LOG + EventsOf(h), false);
    FollowLine(max, Init(Role.Request), t, FIRST_LINE + line, q, u, "\r\n");
    UnframedEnds(max, q, u.log);
  }

  lemma LongerNames(f: string)
    requires "transfer-encoding" < f
    ensures f != "connection" && f != "proxy-connection" && f != "content-length" && f != "upgrade"
      && f != "transfer-encoding"
    ensures f != ""
  {
    assert f[0] == 't';
  }

  lemma UnframedEnds(max: nat, p: Parser, log: seq<Event>)
    requires p.state.HeaderFieldStart? && p.nread + 2 <= max && p.role.Request? && !p.verb.CONNECT? && p.usesTE
    requires !p.flags.trailing && !p.flags.upgrade && !p.flags.chunked && !p.flags.contentLength
    ensures RunFrom(max, p, Tape(log, false), "\r\n", 0)
      == Failed(1, InvalidTransferEncoding, Tape(log + [HeadersComplete(p.verb, p.major, p.minor)], false))
  {
    hide Step, RunFrom, ApplyAll;
    var a, e := p.(nread := p.nread + 1, state := HeadersAlmostDone), HeadersComplete(p.verb, p.major, p.minor);
    EmptyLineCR(max, p);
    LeadsQuietly(max, p, Tape(log, false), CR, a);
    UnframedStep(max, a);
    OneNote(log, e, LF);
    FailsWith(max, a, Tape(log, false), LF, InvalidTransferEncoding, [Notify(e)] + []);
    Follow(max, p, Tape(log, false), [CR], a, Tape(log, false), [LF]);
    assert [CR] + [LF] == "\r\n";
  }

  lemma UnframedStep(max: nat, p: Parser)
    requires p.state.HeadersAlmostDone? && p.nread < max && p.role.Request? && !p.verb.CONNECT? && p.usesTE
    requires !p.flags.trailing && !p.flags.upgrade && !p.flags.chunked && !p.flags.contentLength
    ensures Step(max, p, LF)
      == Fail(InvalidTransferEncoding, [Notify(HeadersComplete(p.verb, p.major, p.minor))] + [])
  {
    hide Step, NewMessage, FieldStart, FieldByte, ValueStart, ValueByte, AfterEmptyLine, AfterValueLine, MessageDone;
    HeaderStepIs(max, p, LF);
  }

  // ----- A last element that is not seen -----

  const CHUNKED := "chunked"

  lemma ChunkedIs()
    ensures Wanted(TeMatchingChunked) == CHUNKED && FoldAll(CHUNKED) == CHUNKED && |CHUNKED| == 7
    ensures CHUNKED[6] == 'd' && ',' !in CHUNKED && CHUNKED[0] == 'c'
  {
  }

  lemma EndIsComma(v: string, j: nat, c: nat)
    requires j < c < |v| && EndsAt(true, v, j, c)
    ensures v[c] == ',' && Unended(true, v, j, c) && !Swallows(true, v[j..c])
  {
    hide Swallows, Unended, Starts;
  }

  /** Where the element before an element seen at `k` has ended. */
  lemma SeenFrom(v: string, k: nat) returns (j: nat, c: nat)
    requires 0 < k <= |v| && Seen(true, v, k)
    ensures j < c < k && Seen(true, v, j) && EndsAt(true, v, j, c) && v[c] == ',' && Spaces(v, c + 1, k)
  {
    hide EndsAt, Spaces;
    j, c :| j < c < k && Seen(true, v, j) && EndsAt(true, v, j, c) && Spaces(v, c + 1, k);
    EndIsComma(v, j, c);
  }

  /** Before its first comma a value has one element that is looked for. */
  lemma OneBeforeComma(v: string, j: nat)
    requires j <= |v| && Seen(true, v, j) && forall k :: 0 <= k < j ==> v[k] != ','
    ensures j == 0
  {
    hide Seen, EndsAt;
    if j > 0 { var i, c := SeenFrom(v, j); }
  }

  /** In a value that ends in `chunked` the word stands at its last bytes. */
  lemma StandsLast(a: string)
    ensures Says(true, a + CHUNKED, TeMatchingChunked) <==> Seen(true, a + CHUNKED, |a|)
  {
    hide Seen, FoldAll;
    ChunkedIs();
    var v, n := a + CHUNKED, |a|;
    assert v[|v| - 1] == 'd';
    assert v[n..|v|] == CHUNKED && CHUNKED[..7] == CHUNKED;
    if Says(true, v, TeMatchingChunked) {
      var k: nat, c: nat :| k < c <= |v| && Seen(true, v, k) && SaysAt(true, v, TeMatchingChunked, k, c);
      assert v[k..c][c - k - 1] == 'd';
    }
    if Seen(true, v, n) { assert SaysAt(true, v, TeMatchingChunked, n, |v|); }
  }

  /** A comma in front of the last element `chunked` ends the first element exactly when the first element does not
      swallow it, that is, when it is neither a beginning of `chunked` nor that word itself. */
  lemma AfterComma(first: string)
    requires first != "" && ',' !in first
    ensures Says(true, first + "," + CHUNKED, TeMatchingChunked) <==> !Swallows(true, first)
  {
    hide Swallows, Seen, Says, Spells;
    var v, n := first + "," + CHUNKED, |first|;
    StandsLast(first + ",");
    FirstElement(first, "," + CHUNKED);
    assert first + ("," + CHUNKED) == v;
    if Seen(true, v, n + 1) {
      var j, c := SeenFrom(v, n + 1);
      OneBeforeComma(v, j);
      EndIsComma(v, j, c);
    }
    if !Swallows(true, first) { SeenNext(v, 0, n, n + 1); }
  }

  lemma SeenNext(v: string, j: nat, c: nat, k: nat)
    requires j < c < k <= |v| && Seen(true, v, j) && EndsAt(true, v, j, c) && Spaces(v, c + 1, k)
    ensures Seen(true, v, k)
  {
    hide EndsAt, Spaces;
  }

  /** The first element of a value, up to its first comma. */
  lemma FirstElement(first: string, rest: string)
    requires first != "" && ',' !in first && rest != "" && rest[0] == ','
    ensures
      var v, n := first + rest, |first|;
      v[..n] == first && v[0..n] == first && v[n] == ',' && (forall k :: 0 <= k < n ==> v[k] != ',')
      && Seen(true, v, 0) && Unended(true, v, 0, n) && (EndsAt(true, v, 0, n) <==> !Swallows(true, first))
  {
    hide Swallows;
    var v, n := first + rest, |first|;
    assert v[0..n] == first;
    assert forall k :: 0 <= k < n ==> v[k] == first[k];
  }

  /** With two commas it is the other way round: after one that ends the first element, the second loses the place. */
  lemma AfterTwoCommas(first: string)
    requires first != "" && ',' !in first
    ensures Says(true, first + ",," + CHUNKED, TeMatchingChunked) <==> Swallows(true, first)
  {
    hide Swallows, Seen, Says, Spells, EndsAt;
    var v, n := first + ",," + CHUNKED, |first|;
    StandsLast(first + ",,");
    FirstElement(first, ",," + CHUNKED);
    assert first + (",," + CHUNKED) == v;
    assert v[n + 1] == ',' && v[0..n + 1] == first + ",";
    CommaIsNoWord(first);
    if Seen(true, v, n + 2) {
      var j, c := SeenFrom(v, n + 2);
      OneBeforeComma(v, j);
      EndIsComma(v, j, c);
    }
    if Swallows(true, first) {
      SecondEnds(v, n);
      SeenNext(v, 0, n + 1, n + 2);
    }
  }

  lemma SecondEnds(v: string, n: nat)
    requires 0 < n && n + 1 < |v| && v[n + 1] == ',' && (forall k :: 0 <= k < n ==> v[k] != ',')
    requires Swallows(true, v[0..n]) && !Swallows(true, v[0..n + 1])
    ensures EndsAt(true, v, 0, n + 1)
  {
    hide Swallows;
  }

  lemma CommaIsNoWord(e: string)
    ensures !Swallows(true, e + ",")
  {
    hide FoldAll, Begins, Spells;
    ChunkedIs();
    NoCommaBegins(e);
    if Spells(e + ",", TeMatchingChunked) { WordHasNoComma(true, e + ",", TeMatchingChunked, |e|); }
  }

  lemma NoCommaBegins(e: string)
    ensures !Begins(e + ",", TeMatchingChunked)
  {
    ChunkedIs();
    assert FoldAll(e + ",")[|e|] == ',';
  }

  /** After a comma and a tab nothing is looked for. */
  lemma AfterTab(first: string)
    requires first != "" && ',' !in first
    ensures !Says(true, first + ",\t" + CHUNKED, TeMatchingChunked)
  {
    hide Swallows, Seen, Says, Spells, EndsAt;
    var v, n := first + ",\t" + CHUNKED, |first|;
    StandsLast(first + ",\t");
    assert v[n + 1] == '\t';
    if Seen(true, v, n + 2) { var j, c := SeenFrom(v, n + 2); }
  }

  /** All of these values end in the element `chunked`. */
  lemma AllEndInChunked(first: string, between: string)
    requires between == "," || between == ",," || between == ",\t"
    ensures EndsIn(first + between + CHUNKED, "chunked")
  {
    hide FoldAll;
    ChunkedIs();
    var v, k := first + between + CHUNKED, |first + between|;
    assert v[k..k + 7] == CHUNKED;
    var c := if between == ",," then k - 1 else |first|;
    assert v[c] == ',' && (forall j :: c < j < k ==> IsBlank(v[j])) && ElementStart(v, k);
    assert Element(v, "chunked", k, |v|);
  }
}
