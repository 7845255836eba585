/** The printer `HttpRequest::toString` against the parser and its callbacks: what is printed is parsed back. */
module RoundTrip {
  import opened Bytes
  import opened ParserTypes
  import opened ParserStep
  import opened ParserRun
  import opened ParserBatches
  import opened ParserProgress
  import opened ParserSegments
  import opened Lengths
  import opened Delivery
  import opened MethodMatcher
  import opened HttpRequests
  import opened HeaderLineRuns

  // ----- The request line -----

  /** The URL state after a path that starts a request target. */
  function UrlState(w: string): State {
    if w == "" then ReqSpacesBeforeUrl else ParseUrlChar(UrlState(w[..|w| - 1]), w[|w| - 1])
  }

  /** The states in which a space may end the URL. */
  predicate EndsUrl(s: State) {
    s.ReqServer? || s.ReqServerWithAt? || s.ReqPath? || s.ReqQueryStringStart? || s.ReqQueryString?
    || s.ReqFragmentStart? || s.ReqFragment?
  }

  predicate PathOk(path: string) { EndsUrl(UrlState(path)) }

  /** Every path of legal URL characters that starts with a slash will do. */
  lemma {:induction false} PlainPathOk(path: string)
    requires path != "" && path[0] == '/' && forall k :: 0 <= k < |path| ==> IsUrlChar(path[k])
    ensures UrlState(path) == ReqPath && PathOk(path)
    decreases |path|
  {
    if |path| == 1 {
      assert UrlState(path[..0]) == ReqSpacesBeforeUrl;
    } else {
      PlainPathOk(path[..|path| - 1]);
    }
  }

  predicate InUrl(s: State) {
    EndsUrl(s) || s.ReqSchema? || s.ReqSchemaSlash? || s.ReqSchemaSlashSlash? || s.ReqServerStart?
  }

  lemma UrlMoves(s: State, ch: char)
    requires s.ReqSpacesBeforeUrl? || InUrl(s)
    ensures ParseUrlChar(s, ch).Dead? || InUrl(ParseUrlChar(s, ch))
    ensures !ParseUrlChar(s, ch).Dead? ==> ch != ' ' && ch != CR && ch != LF
  {
  }

  lemma UrlStep(max: nat, p: Parser, ch: char)
    requires (p.state.ReqSpacesBeforeUrl? && !p.verb.CONNECT?) || InUrl(p.state)
    requires !ParseUrlChar(p.state, ch).Dead? && p.nread < max
    ensures Step(max, p, ch) ==
      Next(p.(nread := p.nread + 1, state := ParseUrlChar(p.state, ch)),
           if p.state.ReqSpacesBeforeUrl? then [Mark(Url), Take(Url)] else [Take(Url)])
  {
    hide Step, ParseUrlChar, StartRequest, ReadMethod;
    UrlMoves(p.state, ch);
    RequestStepIs(max, p, ch);
  }

  lemma UrlStateInside(w: string)
    ensures UrlState(w).Dead? || UrlState(w).ReqSpacesBeforeUrl? || InUrl(UrlState(w))
    ensures UrlState(w).ReqSpacesBeforeUrl? ==> w == ""
    decreases |w|
  {
    hide ParseUrlChar;
    if w != "" {
      UrlStateInside(w[..|w| - 1]);
      if UrlState(w[..|w| - 1]).Dead? { DeadUrl(w[|w| - 1]); } else { UrlMoves(UrlState(w[..|w| - 1]), w[|w| - 1]); }
    }
  }

  lemma DeadUrl(ch: char)
    ensures ParseUrlChar(Dead, ch).Dead?
  {
  }

  lemma {:induction false} UrlLeads(max: nat, p: Parser, log: seq<Event>, w: string)
    requires p.state.ReqSpacesBeforeUrl? && !p.verb.CONNECT? && w != "" && !UrlState(w).Dead? && p.nread + |w| <= max
    ensures Leads(max, p, Tape(log, false), w, p.(nread := p.nread + |w|, state := UrlState(w)),
                  Tape(log + [Data(Url, w)], true))
    decreases |w|
  {
    hide Step, ParseUrlChar, ApplyAll, RunFrom;
    var t := Tape(log, false);
    var init, last := w[..|w| - 1], w[|w| - 1];
    InitLast(w);
    var q, u := p.(nread := p.nread + |w|, state := UrlState(w)), Tape(log + [Data(Url, w)], true);
    TakeTape(log, Url, init, last);
    if init == "" {
      UrlStep(max, p, last);
      LeadsByte(max, p, t, last, q, [Mark(Url), Take(Url)]);
      assert w == [last];
    } else {
      UrlStateInside(init);
      if UrlState(init).Dead? { DeadUrl(last); }
      UrlLeads(max, p, log, init);
      var a, v := p.(nread := p.nread + |init|, state := UrlState(init)), Tape(log + [Data(Url, init)], true);
      UrlStep(max, a, last);
      LeadsByte(max, a, v, last, q, [Take(Url)]);
      Join(max, p, t, init, a, v, [last], q, u);
    }
  }

  lemma MethodLeads(max: nat, p: Parser, log: seq<Event>, m: Method)
    requires p.state.StartReq? && p.nread + |MethodString(m)| + 1 <= max
    ensures
      var n := |MethodString(m)|;
      Leads(max, p, Tape(log, false), MethodString(m) + " ",
            Reading(p, m, n).(nread := p.nread + n + 1, index := n + 1, state := ReqSpacesBeforeUrl),
            Tape(log + [MessageBegin], false))
  {
    hide Step, RunFrom, MethodString, GuessAt;
    var n, t, u := |MethodString(m)|, Tape(log, false), Tape(log + [MessageBegin], false);
    FirstLetter(m);
    GuessLast(m);
    NameIsRead(max, p, log, m, n);
    assert MethodString(m)[..n] == MethodString(m);
    var a := Reading(p, m, n);
    ReadLetter(max, a, ' ');
    var q := a.(nread := p.nread + n + 1, index := n + 1, state := ReqSpacesBeforeUrl);
    LeadsQuietly(max, a, u, ' ', q);
    Join(max, p, t, MethodString(m), a, u, [' '], q, u);
  }

  lemma UrlEnds(max: nat, p: Parser, t: Tape)
    requires EndsUrl(p.state) && p.nread < max
    ensures Leads(max, p, t, " ", p.(nread := p.nread + 1, state := ReqHttpStart), Tape(t.log, false))
  {
    hide Step, ParseUrlChar, StartRequest, ReadMethod, ApplyAll, RunFrom;
    RequestStepIs(max, p, ' ');
    ApplyFlush(t, Url, ' ');
    LeadsByte(max, p, t, ' ', p.(nread := p.nread + 1, state := ReqHttpStart), [Flush(Url)]);
    assert [' '] == " ";
  }

  /** Method, path and the space after it. */
  lemma TargetLeads(max: nat, p: Parser, log: seq<Event>, m: Method, path: string)
    requires p.state.StartReq? && !m.CONNECT? && PathOk(path) && p.nread + |MethodString(m)| + |path| + 2 <= max
    ensures
      var n := |MethodString(m)|;
      Leads(max, p, Tape(log, false), MethodString(m) + " " + path + " ",
            Reading(p, m, n).(nread := p.nread + n + |path| + 2, index := n + 1, state := ReqHttpStart),
            Tape(log + [MessageBegin, Data(Url, path)], false))
  {
    hide RunFrom, MethodString, UrlState;
    var n, t, u := |MethodString(m)|, Tape(log, false), Tape(log + [MessageBegin], false);
    var a := Reading(p, m, n).(nread := p.nread + n + 1, index := n + 1, state := ReqSpacesBeforeUrl);
    EmptyPath();
    MethodLeads(max, p, log, m);
    UrlLeads(max, a, u.log, path);
    var b, v := a.(nread := p.nread + n + |path| + 1, state := UrlState(path)), Tape(u.log + [Data(Url, path)], true);
    Join(max, p, t, MethodString(m) + " ", a, u, path, b, v);
    UrlEnds(max, b, v);
    Join(max, p, t, MethodString(m) + " " + path, b, v, " ", b.(nread := b.nread + 1, state := ReqHttpStart),
         Tape(v.log, false));
    assert u.log + [Data(Url, path)] == log + [MessageBegin, Data(Url, path)];
  }

  lemma EmptyPath()
    ensures !PathOk("")
  {
  }

  /** The bytes of the protocol name and number that are the same in every request line. */
  predicate Fixed(s: State, ch: char, next: State) {
    match s
    case ReqHttpStart => ch == 'H' && next == ReqHttpH
    case ReqHttpH => ch == 'T' && next == ReqHttpHT
    case ReqHttpHT => ch == 'T' && next == ReqHttpHTT
    case ReqHttpHTT => ch == 'P' && next == ReqHttpHTTP
    case ReqHttpHTTP => ch == '/' && next == ReqHttpMajor
    case ReqHttpDot => ch == '.' && next == ReqHttpMinor
    case ReqHttpEnd => ch == CR && next == ReqLineAlmostDone
    case ReqLineAlmostDone => ch == LF && next == HeaderFieldStart
    case _ => false
  }

  lemma FixedByte(max: nat, p: Parser, t: Tape, ch: char, next: State)
    requires Fixed(p.state, ch, next) && p.nread < max
    ensures Leads(max, p, t, [ch], p.(nread := p.nread + 1, state := next), t)
  {
    hide Step, RunFrom;
    VersionStepIs(max, p, ch);
    LeadsQuietly(max, p, t, ch, p.(nread := p.nread + 1, state := next));
  }

  lemma VersionDigit(max: nat, p: Parser, t: Tape, ch: char)
    requires (p.state.ReqHttpMajor? || p.state.ReqHttpMinor?) && IsNum(ch) && p.nread < max
    ensures
      var q := p.(nread := p.nread + 1);
      Leads(max, p, t, [ch], if p.state.ReqHttpMajor? then q.(state := ReqHttpDot, major := Digit(ch))
                             else q.(state := ReqHttpEnd, minor := Digit(ch)), t)
  {
    hide Step, RunFrom, Digit;
    var q := p.(nread := p.nread + 1);
    VersionStepIs(max, p, ch);
    LeadsQuietly(max, p, t, ch, if p.state.ReqHttpMajor? then q.(state := ReqHttpDot, major := Digit(ch))
                                else q.(state := ReqHttpEnd, minor := Digit(ch)));
  }

  lemma ProtocolStarts(max: nat, p: Parser, t: Tape)
    requires p.state.ReqHttpStart? && p.nread + 3 <= max
    ensures Leads(max, p, t, "HTT", p.(nread := p.nread + 3, state := ReqHttpHTT), t)
  {
    hide Leads;
    var a, b := p.(nread := p.nread + 1, state := ReqHttpH), p.(nread := p.nread + 2, state := ReqHttpHT);
    FixedByte(max, p, t, 'H', ReqHttpH);
    FixedByte(max, a, t, 'T', ReqHttpHT);
    FixedByte(max, b, t, 'T', ReqHttpHTT);
    Join(max, p, t, ['H'], a, t, ['T'], b, t);
    Join(max, p, t, ['H'] + ['T'], b, t, ['T'], p.(nread := p.nread + 3, state := ReqHttpHTT), t);
    assert ['H'] + ['T'] + ['T'] == "HTT";
  }

  lemma ProtocolLeads(max: nat, p: Parser, t: Tape)
    requires p.state.ReqHttpStart? && p.nread + 5 <= max
    ensures Leads(max, p, t, "HTTP/", p.(nread := p.nread + 5, state := ReqHttpMajor), t)
  {
    hide Leads;
    var c, d := p.(nread := p.nread + 3, state := ReqHttpHTT), p.(nread := p.nread + 4, state := ReqHttpHTTP);
    ProtocolStarts(max, p, t);
    FixedByte(max, c, t, 'P', ReqHttpHTTP);
    FixedByte(max, d, t, '/', ReqHttpMajor);
    Join(max, p, t, "HTT", c, t, ['P'], d, t);
    Join(max, p, t, "HTT" + ['P'], d, t, ['/'], p.(nread := p.nread + 5, state := ReqHttpMajor), t);
    assert "HTT" + ['P'] + ['/'] == "HTTP/";
  }

  predicate VersionOk(v: string) { |v| == 3 && IsNum(v[0]) && v[1] == '.' && IsNum(v[2]) }

  lemma NumberLeads(max: nat, p: Parser, t: Tape, v: string)
    requires p.state.ReqHttpMajor? && VersionOk(v) && p.nread + 5 <= max
    ensures Leads(max, p, t, v + "\r\n",
                  p.(nread := p.nread + 5, state := HeaderFieldStart, major := Digit(v[0]), minor := Digit(v[2])), t)
  {
    hide Leads, Digit, IsNum;
    var m := p.(major := Digit(v[0]));
    var n := m.(minor := Digit(v[2]));
    var a, b := m.(nread := p.nread + 1, state := ReqHttpDot), m.(nread := p.nread + 2, state := ReqHttpMinor);
    var c, d := n.(nread := p.nread + 3, state := ReqHttpEnd), n.(nread := p.nread + 4, state := ReqLineAlmostDone);
    var e := n.(nread := p.nread + 5, state := HeaderFieldStart);
    VersionDigit(max, p, t, v[0]);
    FixedByte(max, a, t, '.', ReqHttpMinor);
    VersionDigit(max, b, t, v[2]);
    FixedByte(max, c, t, CR, ReqLineAlmostDone);
    FixedByte(max, d, t, LF, HeaderFieldStart);
    Join(max, p, t, [v[0]], a, t, ['.'], b, t);
    Join(max, p, t, [v[0]] + ['.'], b, t, [v[2]], c, t);
    Join(max, p, t, [v[0]] + ['.'] + [v[2]], c, t, [CR], d, t);
    Join(max, p, t, [v[0]] + ['.'] + [v[2]] + [CR], d, t, [LF], e, t);
    assert [v[0]] + ['.'] + [v[2]] + [CR] + [LF] == v + "\r\n";
  }

  // ----- The requests that the printer writes faithfully -----

  function Head(r: Request): string { RequestLine(r) + ConnectionLine(r) + HeaderLines(r, 0) + LengthLine(r) + "\r\n" }

  /** The method is printed with its name on the wire. */
  predicate NameOnWire(r: Request) { r.verb.Some? && !r.verb.value.MSEARCH? }

  /** Every condition but those on method name, query and fragment. */
  ghost predicate Printable(max: nat, r: Request) {
    && !r.webSocket && r.verb != Some(CONNECT)
    && PathOk(r.path) && VersionOk(r.version)
    && Sorted(r.headers) && (forall i :: 0 <= i < |r.headers| ==> Ordinary(r.headers[i]))
    && |Head(r)| <= max && |r.body| <= MAX_LENGTH
  }

  /** The record after the request line. */
  function AfterLine(r: Request, n: nat): Parser
    requires r.verb.Some? && VersionOk(r.version)
  {
    Init(Role.Request).(
      contentLength := ULLONG_MAX, verb := r.verb.value, index := |MethodString(r.verb.value)| + 1, nread := n,
      state := HeaderFieldStart, major := Digit(r.version[0]), minor := Digit(r.version[2]))
  }

  function LineLog(r: Request): seq<Event> { [MessageBegin, Data(Url, r.path)] }

  lemma HeadLength(r: Request)
    ensures |Head(r)| ==
      |RequestLine(r)| + |ConnectionLine(r)| + |HeaderLines(r, 0)| + |LengthLine(r)| + 2
  {
    hide RequestLine, ConnectionLine, HeaderLines, LengthLine;
  }

  lemma LineIs(r: Request)
    requires r.verb.Some? && !r.verb.value.MSEARCH?
    ensures
      var target := MethodString(r.verb.value) + " " + r.path + " ";
      var middle := (if r.query == "" then "" else "?") + r.query + (if r.frag == "" then "" else "#") + r.frag;
      RequestLine(r) == target + middle + ("HTTP/" + (r.version + "\r\n"))
  {
    hide MethodString;
    RequestLineIs(r);
  }

  lemma RequestLineLeads(max: nat, r: Request)
    requires r.verb.Some? && !r.verb.value.MSEARCH? && !r.verb.value.CONNECT? && PathOk(r.path) && VersionOk(r.version)
    requires r.query == "" && r.frag == "" && |RequestLine(r)| <= max
    ensures Leads(max, Init(Role.Request), Tape([], false), RequestLine(r), AfterLine(r, |RequestLine(r)|),
                  Tape(LineLog(r), false))
  {
    hide RunFrom, Leads, MethodString, PathOk, VersionOk, RequestLine, Digit;
    LineIs(r);
    var m, p, t, u := r.verb.value, Init(Role.Request), Tape([], false), Tape(LineLog(r), false);
    var n := |MethodString(m)|;
    var target := MethodString(m) + " " + r.path + " ";
    TargetLeads(max, p, [], m, r.path);
    assert [] + LineLog(r) == LineLog(r);
    var a := Reading(p, m, n).(nread := |target|, index := n + 1, state := ReqHttpStart);
    VersionLength(r.version);
    ProtocolLeads(max, a, u);
    var b := a.(nread := |target| + 5, state := ReqHttpMajor);
    Join(max, p, t, target, a, u, "HTTP/", b, u);
    NumberLeads(max, b, u, r.version);
    Join(max, p, t, target + "HTTP/", b, u, r.version + "\r\n", AfterLine(r, |RequestLine(r)|), u);
    assert RequestLine(r) == target + "HTTP/" + (r.version + "\r\n");
  }

  lemma VersionLength(v: string)
    requires VersionOk(v)
    ensures |v| == 3
  {
  }

  // ----- The headers -----

  lemma {:induction false} TokenKey(n: string)
    requires AllTokens(n)
    ensures CStr(n) == n && Key(n) == FoldAll(n)
    decreases |n|
  {
    hide FoldAll, IsToken;
    if n != "" {
      NulIsNoToken(n[0]);
      TokenKey(n[1..]);
      assert n == [n[0]] + n[1..];
    }
  }

  lemma OrdinaryKey(h: Header)
    requires Ordinary(h)
    ensures Key(h.name) != "connection" && Key(h.name) != "content-length"
  {
    hide FoldAll, AllTokens, Key, PlainValue;
    TokenKey(h.name);
  }

  /** The printer writes every ordinary header. */
  lemma {:induction false} HeaderLinesAre(r: Request, i: nat)
    requires i <= |r.headers| && forall k :: 0 <= k < |r.headers| ==> Ordinary(r.headers[k])
    ensures HeaderLines(r, i) == Lines(r.headers[i..])
    decreases |r.headers| - i
  {
    hide Ordinary, Key, HeaderLine;
    if i < |r.headers| {
      OrdinaryKey(r.headers[i]);
      HeaderLinesAre(r, i + 1);
      assert r.headers[i..][1..] == r.headers[i + 1..];
    }
  }

  lemma {:induction false} OrdinaryAbsent(h: seq<Header>, x: string)
    requires forall k :: 0 <= k < |h| ==> Ordinary(h[k])
    requires Key(x) == "connection" || Key(x) == "content-length"
    ensures Lookup(h, x) == None
    decreases |h|
  {
    hide Ordinary, Key;
    if h != [] {
      OrdinaryKey(h[0]);
      OrdinaryAbsent(h[1..], x);
    }
  }

  lemma WordFolds(n: string)
    requires AllTokens(n) && FoldAll(n) == n
    ensures Key(n) == n
  {
    hide AllTokens, Key, FoldAll;
    TokenKey(n);
  }

  lemma WordKeys()
    ensures Key("connection") == "connection" && Key("content-length") == "content-length"
    ensures Key("close") == "close" && Key("keep-alive") == "keep-alive"
  {
    hide Key, AllTokens, FoldAll;
    WordsAreTokens("connection");
    WordsAreTokens("content-length");
    ValuesAreTokens("close");
    ValuesAreTokens("keep-alive");
    WordFolds("connection");
    WordFolds("content-length");
    WordFolds("close");
    WordFolds("keep-alive");
  }

  lemma ValuesAreTokens(n: string)
    requires n == "close" || n == "keep-alive"
    ensures AllTokens(n) && FoldAll(n) == n
  {
  }

  function LengthEvents(r: Request): seq<Event> {
    if r.body == "" then [] else EventsOf(Header("content-length", Decimal(|r.body|)))
  }

  function HeadLog(r: Request): seq<Event> {
    LineLog(r) + EventsOf(Header("connection", ConnectionValue(r.keepAlive))) + LinesEvents(r.headers) + LengthEvents(r)
  }

  lemma LengthLineRead(max: nat, p: Parser, log: seq<Event>, r: Request) returns (q: Parser)
    requires p.state.HeaderFieldStart? && !p.flags.contentLength && p.contentLength == ULLONG_MAX
    requires |r.body| <= MAX_LENGTH
    requires p.nread + |LengthLine(r)| <= max && forall k :: 0 <= k < |r.headers| ==> Ordinary(r.headers[k])
    ensures q == p.(nread := p.nread + |LengthLine(r)|, headerState := q.headerState, index := q.index,
                    contentLength := if r.body == "" then ULLONG_MAX else |r.body|,
                    flags := p.flags.(contentLength := r.body != ""))
    ensures LeadsToLine(max, p, Tape(log, false), LengthLine(r), q, Tape(log + LengthEvents(r), false))
    ensures LengthLine(r) == "" || !IsBlank(LengthLine(r)[0])
  {
    hide Ordinary, HeaderLine, RunFrom, LeadsToLine, Key, Decimal, EventsOf, Lookup, AllTokens, FoldAll, AllDigits,
         DecValue;
    WordKeys();
    OrdinaryAbsent(r.headers, "content-length");
    var t := Tape(log, false);
    if r.body == "" {
      q := p;
      NoLine(max, p, t);
      assert log + [] == log;
    } else {
      WordsAreTokens("content-length");
      DecimalValue(|r.body|);
      q := LengthRead(max, p, log, Header("content-length", Decimal(|r.body|)));
      LineStarts("content-length", Decimal(|r.body|));
    }
  }

  lemma LineStarts(n: string, v: string)
    requires n == "connection" || n == "content-length"
    ensures HeaderLine(n, v) != "" && !IsBlank(HeaderLine(n, v)[0])
  {
  }

  /** The record before the empty line. */
  predicate HeadRead(r: Request, q: Parser)
    requires r.verb.Some? && VersionOk(r.version)
  {
    q == AfterLine(r, q.nread).(
      headerState := q.headerState, index := q.index,
      contentLength := if r.body == "" then ULLONG_MAX else |r.body|,
      flags := NO_FLAGS.(keepAlive := r.keepAlive, close := !r.keepAlive, contentLength := r.body != ""))
  }

  lemma LinesLead(max: nat, r: Request) returns (q: Parser)
    requires Printable(max, r) && NameOnWire(r) && r.query == "" && r.frag == ""
    ensures HeadRead(r, q) && q.nread + 2 <= max
    ensures LeadsToLine(max, Init(Role.Request), Tape([], false),
                        RequestLine(r) + (ConnectionLine(r) + (HeaderLines(r, 0) + LengthLine(r))), q,
                        Tape(HeadLog(r), false))
  {
    hide RunFrom, LeadsToLine, RequestLine, LengthLine, HeaderLine, HeaderLines, PathOk, VersionOk, Ordinary, Sorted,
         EventsOf,
         Digit, MethodString, LinesEvents, Lines, IsBlank, Head, Leads, LengthEvents, ConnectionValue;
    HeadLength(r);
    RequestLineLeads(max, r);
    var p0, t0 := Init(Role.Request), Tape([], false);
    var p1, t1 := AfterLine(r, |RequestLine(r)|), Tape(LineLog(r), false);
    ConnectionLineIs(r);
    var p2 := ConnectionRead(max, p1, t1.log, r.keepAlive);
    var t2 := Tape(t1.log + EventsOf(Header("connection", ConnectionValue(r.keepAlive))), false);
    HeaderLinesAre(r, 0);
    assert r.headers[0..] == r.headers;
    var p3 := LinesRead(max, p2, t2.log, r.headers);
    var t3 := Tape(t2.log + LinesEvents(r.headers), false);
    q := LengthLineRead(max, p3, t3.log, r);
    var t4 := Tape(HeadLog(r), false);
    var c, lines, l := ConnectionLine(r), HeaderLines(r, 0), LengthLine(r);
    LinesStart(r.headers);
    LineStarts("connection", ConnectionValue(r.keepAlive));
    StartsWell(lines, l);
    StartsWell(c, lines + l);
    JoinLines(max, p2, t2, lines, p3, t3, l, q, t4);
    JoinLines(max, p1, t1, c, p2, t2, lines + l, q, t4);
    LineDoneFirst(max, p0, t0, RequestLine(r), p1, t1);
    JoinLines(max, p0, t0, RequestLine(r), p1, t1, c + (lines + l), q, t4);
  }

  lemma ConnectionLineIs(r: Request)
    requires !r.webSocket
    ensures ConnectionLine(r) == HeaderLine("connection", ConnectionValue(r.keepAlive))
  {
    hide HeaderLine;
  }

  lemma LineDoneFirst(max: nat, p: Parser, t: Tape, w: string, q: Parser, u: Tape)
    requires Leads(max, p, t, w, q, u) && q.state.HeaderFieldStart? && !u.open
    ensures LeadsToLine(max, p, t, w, q, u)
  {
    hide RunFrom;
  }

  // ----- The empty line and the body -----

  lemma HeadEnds(max: nat, p: Parser)
    requires p.state.HeadersAlmostDone? && p.nread < max && p.role.Request? && !p.verb.CONNECT? && !p.usesTE
    requires !p.flags.trailing && !p.flags.upgrade && !p.flags.chunked
    ensures
      var c := p.(nread := 0, upgrade := false);
      var note := [Notify(HeadersComplete(p.verb, p.major, p.minor))];
      Step(max, p, LF) ==
        if p.contentLength == 0 || p.contentLength == ULLONG_MAX then
          Next(c.(state := NewMessage(c)), note + [Notify(MessageComplete)])
        else Next(c.(state := BodyIdentity), note + [])
  {
    hide Step, NewMessage, FieldStart, FieldByte, ValueStart, ValueByte, AfterEmptyLine, AfterValueLine, MessageDone;
    HeaderStepIs(max, p, LF);
  }

  lemma IdentityLeads(max: nat, p: Parser, log: seq<Event>, body: string)
    requires p.state.BodyIdentity? && p.contentLength == |body| && body != "" && !p.upgrade
    ensures
      var c := p.(contentLength := 0);
      Leads(max, p, Tape(log, false), body, c.(state := NewMessage(c)),
            Tape(log + [Data(Body, body), MessageComplete], false))
  {
    hide Step, NewMessage;
    var t := Tape(log, false);
    var c := p.(contentLength := 0);
    var q, u := c.(state := NewMessage(c)), Tape(log + [Data(Body, body), MessageComplete], false);
    assert body[0..|body|] == body;
    if |body| == 1 {
      LastIdentityByte(Watched(max, p, t, body, 0, None), max, p, t, body, 0);
    } else {
      var v := TakeBody(t, body[0..|body| - 1]);
      BodyRun(max, p, t, body, 0, |body| - 1);
      TakeBodyTwice(t, body, 0, |body| - 1, |body|);
      LastIdentityByte(Watched(max, p, t, body, 0, None), max, p.(contentLength := 1), v, body, |body| - 1);
    }
    assert log + [Data(Body, body)] + [MessageComplete] == u.log;
    RunsOut(max, q, u, body);
  }

  function EndLog(r: Request): seq<Event>
    requires r.verb.Some? && VersionOk(r.version)
  {
    [HeadersComplete(r.verb.value, Digit(r.version[0]), Digit(r.version[2]))]
    + (if r.body == "" then [MessageComplete] else [Data(Body, r.body), MessageComplete])
  }

  lemma PersistsAsAsked(p: Parser, r: Request)
    requires p.role.Request? && p.flags.keepAlive == r.keepAlive && p.flags.close == !r.keepAlive
    ensures NewMessage(p) == if r.keepAlive then StartReq else Dead
  {
  }

  lemma RestLeads(max: nat, p: Parser, log: seq<Event>, r: Request) returns (q: Parser)
    requires r.verb.Some? && !r.verb.value.CONNECT? && VersionOk(r.version) && |r.body| <= MAX_LENGTH
    requires HeadRead(r, p) && p.nread + 2 <= max
    ensures Leads(max, p, Tape(log, false), "\r\n" + r.body, q, Tape(log + EndLog(r), false))
    ensures q.state == if r.keepAlive then StartReq else Dead
  {
    hide RunFrom, Step, ApplyAll, NewMessage, VersionOk, MethodString, Digit;
    var t := Tape(log, false);
    var a := p.(nread := p.nread + 1, state := HeadersAlmostDone);
    var e := HeadersComplete(p.verb, p.major, p.minor);
    EmptyLineCR(max, p);
    LeadsQuietly(max, p, t, CR, a);
    BoundsBelowSentinel();
    HeadEnds(max, a);
    var c := a.(nread := 0, upgrade := false);
    PersistsAsAsked(c, r);
    PersistsAsAsked(c.(contentLength := 0, state := BodyIdentity), r);
    assert [CR] + [LF] == "\r\n";
    if r.body == "" {
      q := c.(state := NewMessage(c));
      TwoNotes(log, e, MessageComplete, LF);
      LeadsByte(max, a, t, LF, q, [Notify(e)] + [Notify(MessageComplete)]);
      Join(max, p, t, [CR], a, t, [LF], q, Tape(log + [e] + [MessageComplete], false));
      assert log + [e] + [MessageComplete] == log + EndLog(r);
      assert "\r\n" + r.body == "\r\n";
    } else {
      var b, u := c.(state := BodyIdentity), Tape(log + [e], false);
      OneNote(log, e, LF);
      LeadsByte(max, a, t, LF, b, [Notify(e)] + []);
      Join(max, p, t, [CR], a, t, [LF], b, u);
      IdentityLeads(max, b, u.log, r.body);
      q := b.(contentLength := 0).(state := NewMessage(b.(contentLength := 0)));
      Join(max, p, t, "\r\n", b, u, r.body, q, Tape(u.log + [Data(Body, r.body), MessageComplete], false));
      assert u.log + [Data(Body, r.body), MessageComplete] == log + EndLog(r);
    }
  }

  lemma PrintIs(r: Request)
    ensures Print(r) == RequestLine(r) + (ConnectionLine(r) + (HeaderLines(r, 0) + LengthLine(r))) + ("\r\n" + r.body)
  {
    hide RequestLine, ConnectionLine, HeaderLines, LengthLine;
  }

  /** The run over the printed text, and every callback it makes. */
  lemma PrintedRun(max: nat, r: Request) returns (q: Parser)
    requires Printable(max, r) && NameOnWire(r) && r.query == "" && r.frag == ""
    ensures RunFrom(max, Init(Role.Request), Tape([], false), Print(r), 0)
      == Running(q, Tape(HeadLog(r) + EndLog(r), false))
    ensures q.state == if r.keepAlive then StartReq else Dead
  {
    hide RunFrom, LeadsToLine, RequestLine, ConnectionLine, LengthLine, HeaderLines, PathOk, VersionOk, Ordinary,
         Sorted, IsBlank,
         Head, HeadLog, EndLog, HeadRead;
    var p := LinesLead(max, r);
    q := RestLeads(max, p, HeadLog(r), r);
    PrintIs(r);
    NotBlank();
    FollowLine(max, Init(Role.Request), Tape([], false),
               RequestLine(r) + (ConnectionLine(r) + (HeaderLines(r, 0) + LengthLine(r))),
               p, Tape(HeadLog(r), false), "\r\n" + r.body);
  }

  lemma NotBlank()
    ensures !IsBlank(CR)
  {
  }

  // ----- What the callbacks make of it -----

  lemma DeliverLine(o: Request, h: Header)
    requires Sorted(o.headers)
    ensures
      var keep := if Key(h.name) == "connection" then Key(h.value) != "close" else o.keepAlive;
      DeliverAll(o, EventsOf(h)) == o.(tmpHeader := h.name, keepAlive := keep,
                                       headers := Insert(o.headers, h.name, h.value))
    ensures Sorted(Insert(o.headers, h.name, h.value))
  {
    hide Key, Insert, Lookup;
    var a, b := Data(HeaderFieldData, h.name), Data(HeaderValueData, h.value);
    assert EventsOf(h) == [] + [a] + [b];
    DeliverSnoc(o, [], a);
    DeliverSnoc(o, [] + [a], b);
    InsertLookup(o.headers, h.name, h.value, "");
  }

  lemma {:induction false} DeliverLines(o: Request, h: seq<Header>, x: string)
    requires Sorted(o.headers) && Sorted(h) && forall k :: 0 <= k < |h| ==> Ordinary(h[k])
    ensures
      var q := DeliverAll(o, LinesEvents(h));
      q == o.(headers := q.headers, tmpHeader := q.tmpHeader) && Sorted(q.headers)
      && Lookup(q.headers, x) == if Lookup(h, x).Some? then Lookup(h, x) else Lookup(o.headers, x)
    decreases |h|
  {
    hide Key, Insert, Ordinary, Less, EventsOf;
    if h != [] {
      SortedTail(h);
      OrdinaryKey(h[0]);
      DeliverLine(o, h[0]);
      var one := DeliverAll(o, EventsOf(h[0]));
      DeliverConcat(o, EventsOf(h[0]), LinesEvents(h[1..]));
      InsertLookup(o.headers, h[0].name, h[0].value, x);
      if Key(x) == Key(h[0].name) { LookupAbsent(h[1..], x); }
      DeliverLines(one, h[1..], x);
    }
  }

  /** What a parsed request answers for a header: the two that the printer adds, and otherwise what was there. */
  function Answer(r: Request, x: string): Option<string> {
    if r.body != "" && Key(x) == "content-length" then Some(Decimal(|r.body|))
    else if Key(x) == "connection" then Some(ConnectionValue(r.keepAlive))
    else Lookup(r.headers, x)
  }

  ghost predicate Recovers(o: Request, r: Request) {
    && o.verb == r.verb && o.version == r.version && o.path == r.path && o.body == r.body
    && o.keepAlive == r.keepAlive && o.query == "" && o.frag == "" && !o.webSocket
    && forall x :: Lookup(o.headers, x) == Answer(r, x)
  }

  lemma DeliverFirst(r: Request)
    ensures DeliverAll(FRESH, LineLog(r)) == FRESH.(path := r.path)
  {
    assert LineLog(r) == [] + [MessageBegin] + [Data(Url, r.path)];
    DeliverSnoc(FRESH, [], MessageBegin);
    DeliverSnoc(FRESH, [] + [MessageBegin], Data(Url, r.path));
  }

  lemma DigitPrints(ch: char)
    requires IsNum(ch)
    ensures Decimal(Digit(ch)) == [ch]
  {
  }

  lemma DeliverEnd(o: Request, r: Request)
    requires r.verb.Some? && VersionOk(r.version) && o.body == ""
    ensures DeliverAll(o, EndLog(r)) == o.(verb := r.verb, version := r.version, body := r.body)
  {
    hide Decimal, Digit;
    var e := HeadersComplete(r.verb.value, Digit(r.version[0]), Digit(r.version[2]));
    DigitPrints(r.version[0]);
    DigitPrints(r.version[2]);
    assert r.version == [r.version[0]] + "." + [r.version[2]];
    DeliverSnoc(o, [], e);
    DeliverSnoc(o, [] + [e], MessageComplete);
    DeliverSnoc(o, [] + [e], Data(Body, r.body));
    DeliverSnoc(o, [] + [e] + [Data(Body, r.body)], MessageComplete);
    assert "" + r.body == r.body;
    assert EndLog(r) == if r.body == "" then [] + [e] + [MessageComplete]
      else [] + [e] + [Data(Body, r.body)] + [MessageComplete];
  }

  lemma DeliverLength(o: Request, r: Request, x: string)
    requires Sorted(o.headers)
    ensures
      var q := DeliverAll(o, LengthEvents(r));
      q == o.(headers := q.headers, tmpHeader := q.tmpHeader) && Sorted(q.headers)
      && Lookup(q.headers, x)
         == if r.body != "" && Key(x) == "content-length" then Some(Decimal(|r.body|)) else Lookup(o.headers, x)
  {
    hide Key, Insert, Decimal, EventsOf, Lookup;
    WordKeys();
    if r.body != "" {
      var h := Header("content-length", Decimal(|r.body|));
      DeliverLine(o, h);
      InsertLookup(o.headers, h.name, h.value, x);
    }
  }

  lemma DeliverConnection(o: Request, keep: bool, x: string)
    requires Sorted(o.headers)
    ensures
      var q := DeliverAll(o, EventsOf(Header("connection", ConnectionValue(keep))));
      q == o.(headers := q.headers, tmpHeader := q.tmpHeader, keepAlive := keep) && Sorted(q.headers)
      && Lookup(q.headers, x) == if Key(x) == "connection" then Some(ConnectionValue(keep)) else Lookup(o.headers, x)
  {
    hide Key, Insert, EventsOf, Lookup;
    WordKeys();
    var h := Header("connection", ConnectionValue(keep));
    DeliverLine(o, h);
    InsertLookup(o.headers, h.name, h.value, x);
  }

  lemma HeadDelivered(r: Request, x: string)
    requires Sorted(r.headers) && forall i :: 0 <= i < |r.headers| ==> Ordinary(r.headers[i])
    ensures
      var q := DeliverAll(FRESH, HeadLog(r));
      q == FRESH.(path := r.path, keepAlive := r.keepAlive, headers := q.headers, tmpHeader := q.tmpHeader)
      && Lookup(q.headers, x) == Answer(r, x)
  {
    hide Key, Insert, EventsOf, DeliverAll, Ordinary, LinesEvents, LengthEvents, LineLog, Decimal, ConnectionValue;
    var conn := EventsOf(Header("connection", ConnectionValue(r.keepAlive)));
    DeliverFirst(r);
    DeliverConcat(FRESH, LineLog(r), conn);
    var a := DeliverAll(FRESH, LineLog(r));
    DeliverConnection(a, r.keepAlive, x);
    var b := DeliverAll(a, conn);
    DeliverConcat(FRESH, LineLog(r) + conn, LinesEvents(r.headers));
    DeliverLines(b, r.headers, x);
    var c := DeliverAll(b, LinesEvents(r.headers));
    DeliverConcat(FRESH, LineLog(r) + conn + LinesEvents(r.headers), LengthEvents(r));
    DeliverLength(c, r, x);
    if Key(x) == "connection" || Key(x) == "content-length" { OrdinaryAbsent(r.headers, x); }
  }

  lemma AllDelivered(r: Request)
    requires r.verb.Some? && VersionOk(r.version) && !r.webSocket
    requires Sorted(r.headers) && forall i :: 0 <= i < |r.headers| ==> Ordinary(r.headers[i])
    ensures Recovers(DeliverAll(FRESH, HeadLog(r) + EndLog(r)), r)
  {
    hide DeliverAll, HeadLog, EndLog, Answer, Ordinary, Sorted, VersionOk;
    HeadDelivered(r, "");
    DeliverConcat(FRESH, HeadLog(r), EndLog(r));
    DeliverEnd(DeliverAll(FRESH, HeadLog(r)), r);
    forall x ensures Lookup(DeliverAll(FRESH, HeadLog(r) + EndLog(r)).headers, x) == Answer(r, x) {
      HeadDelivered(r, x);
    }
  }

  // ----- Main results -----

  lemma {:induction false} NoCompletions(log: seq<Event>)
    requires forall k :: 0 <= k < |log| ==> !log[k].MessageComplete?
    ensures Completions(log) == 0
    decreases |log|
  {
    if log != [] { NoCompletions(log[..|log| - 1]); }
  }

  lemma {:induction false} LinesComplete(h: seq<Header>)
    ensures forall k :: 0 <= k < |LinesEvents(h)| ==> !LinesEvents(h)[k].MessageComplete?
    decreases |h|
  {
    if h != [] { LinesComplete(h[1..]); }
  }

  lemma CompletedOnce(r: Request)
    requires r.verb.Some? && VersionOk(r.version)
    ensures Completions(HeadLog(r) + EndLog(r)) == 1
  {
    hide LinesEvents, Decimal, Digit, ConnectionValue, Completions;
    var log := HeadLog(r) + EndLog(r);
    LinesComplete(r.headers);
    assert EndLog(r)[|EndLog(r)| - 1] == MessageComplete;
    var init := log[..|log| - 1];
    assert log == init + [MessageComplete];
    assert forall k :: 0 <= k < |init| ==>
      init[k] == if k < |HeadLog(r)| then HeadLog(r)[k] else EndLog(r)[k - |HeadLog(r)|];
    NoCompletions(init);
    BodySnoc(init, MessageComplete);
  }

  /** One call on the printed request recovers it: method, version, path, keep-alive, body and every header; the
      message is complete, and the connection stays open exactly when the request asked for it. */
  lemma PrintedIsParsed(max: nat, r: Request)
    requires Printable(max, r) && NameOnWire(r) && r.query == "" && r.frag == ""
    ensures
      var s := Executed(max, Init(Role.Request), [], Print(r));
      s.Running? && s.parser.state == (if r.keepAlive then StartReq else Dead)
      && Recovers(DeliverAll(FRESH, s.tape.log), r) && Completions(s.tape.log) == 1
  {
    hide RunFrom, PathOk, VersionOk, Ordinary, Sorted, Head, HeadLog, EndLog, DeliverAll, Recovers, Completions, Print;
    var q := PrintedRun(max, r);
    AllDelivered(r);
    CompletedOnce(r);
  }

  lemma BadStart(max: nat, p: Parser, t: Tape, ch: char)
    requires p.state.ReqHttpStart? && p.nread < max && (ch == '?' || ch == '#')
    ensures RunFrom(max, p, t, [ch], 0) == Failed(0, InvalidConstant, t)
  {
    hide Step, RunFrom;
    VersionStepIs(max, p, ch);
    FailsAt(max, p, t, ch, InvalidConstant);
  }

  lemma MiddleIs(r: Request) returns (rest: string)
    requires r.verb.Some? && !r.verb.value.MSEARCH? && (r.query != "" || r.frag != "")
    ensures Print(r)
      == (MethodString(r.verb.value) + " " + r.path + " ") + ([if r.query != "" then '?' else '#'] + rest)
    ensures |MethodString(r.verb.value)| + |r.path| + 3 <= |RequestLine(r)|
  {
    hide RequestLine, MethodString, ConnectionLine, HeaderLines, LengthLine, Print;
    var target := MethodString(r.verb.value) + " " + r.path + " ";
    var tail := "HTTP/" + (r.version + "\r\n");
    var more := ConnectionLine(r) + (HeaderLines(r, 0) + LengthLine(r)) + ("\r\n" + r.body);
    var ch := if r.query != "" then '?' else '#';
    var query := if r.query == "" then r.frag else if r.frag == "" then r.query else r.query + "#" + r.frag;
    LineIs(r);
    MiddleText(r, ch, query);
    PrintIs(r);
    rest := query + tail + more;
    Regroup(target, [ch], query, tail, more);
  }

  lemma MiddleText(r: Request, ch: char, query: string)
    requires ch == (if r.query != "" then '?' else '#') && (r.query != "" || r.frag != "")
    requires query == if r.query == "" then r.frag else if r.frag == "" then r.query else r.query + "#" + r.frag
    ensures (if r.query == "" then "" else "?") + r.query + (if r.frag == "" then "" else "#") + r.frag == [ch] + query
  {
  }

  lemma Regroup(a: string, b: string, c: string, d: string, e: string)
    ensures a + (b + c) + d + e == a + (b + (c + d + e))
  {
  }

  /** A query or a fragment is printed where the parser wants the protocol name: the text is rejected. */
  lemma QueryIsRejected(max: nat, r: Request)
    requires Printable(max, r) && NameOnWire(r) && (r.query != "" || r.frag != "")
    ensures
      var s := Executed(max, Init(Role.Request), [], Print(r));
      s.Failed? && s.error == InvalidConstant
  {
    hide RunFrom, PathOk, VersionOk, Ordinary, Sorted, Head, MethodString, Print, RequestLine, ConnectionLine,
         HeaderLines, LengthLine;
    HeadLength(r);
    var rest := MiddleIs(r);
    var ch := if r.query != "" then '?' else '#';
    var target := MethodString(r.verb.value) + " " + r.path + " ";
    TargetLeads(max, Init(Role.Request), [], r.verb.value, r.path);
    var a := Reading(Init(Role.Request), r.verb.value, |MethodString(r.verb.value)|)
      .(nread := |target|, index := |MethodString(r.verb.value)| + 1, state := ReqHttpStart);
    var u := Tape([] + [MessageBegin, Data(Url, r.path)], false);
    BadStart(max, a, u, ch);
    FailsInside(max, a, u, [ch], rest);
    Follow(max, Init(Role.Request), Tape([], false), target, a, u, [ch] + rest);
  }

  lemma NoSuchName(r: Request, m: Method)
    requires !NameOnWire(r)
    ensures MethodName(r.verb) != MethodString(m) && ' ' !in MethodName(r.verb)
    ensures MethodName(r.verb) != "" && MethodName(r.verb)[0] != CR && MethodName(r.verb)[0] != LF
  {
  }

  lemma NameFirst(r: Request) returns (rest: string)
    ensures Print(r) == (MethodName(r.verb) + " ") + rest && |MethodName(r.verb)| + 1 <= |RequestLine(r)|
  {
    hide RequestLine, MethodName, ConnectionLine, HeaderLines, LengthLine, Print;
    RequestLineIs(r);
    PrintIs(r);
    var tail := r.path + " " + (if r.query == "" then "" else "?") + r.query
                + (if r.frag == "" then "" else "#") + r.frag + "HTTP/" + r.version + "\r\n";
    rest := tail + (ConnectionLine(r) + (HeaderLines(r, 0) + LengthLine(r))) + ("\r\n" + r.body);
    assert RequestLine(r) == (MethodName(r.verb) + " ") + tail;
  }

  /** A request without a method, and M-SEARCH, print a name that is no method's name. */
  lemma NameIsRejected(max: nat, r: Request)
    requires Printable(max, r) && !NameOnWire(r)
    ensures Executed(max, Init(Role.Request), [], Print(r)).Failed?
  {
    hide RunFrom, PathOk, VersionOk, Ordinary, Sorted, Head, MethodString, MethodName, Print, RequestLine,
         ConnectionLine,
         HeaderLines, LengthLine;
    HeadLength(r);
    var w := MethodName(r.verb);
    var rest := NameFirst(r);
    forall m ensures w != MethodString(m) { NoSuchName(r, m); }
    NoSuchName(r, GET);
    MethodExactness(max, Init(Role.Request), [], w);
    FailsInside(max, Init(Role.Request), Tape([], false), w + " ", rest);
  }

  /** Exactly the requests with a method name on the wire and without query and fragment survive printing and
      parsing. */
  lemma RoundTripExactly(max: nat, r: Request)
    requires Printable(max, r)
    ensures
      var s := Executed(max, Init(Role.Request), [], Print(r));
      s.Running? && Recovers(DeliverAll(FRESH, s.tape.log), r) <==> NameOnWire(r) && r.query == "" && r.frag == ""
  {
    hide Executed, Printable, Recovers, DeliverAll, Print, NameOnWire;
    if !NameOnWire(r) {
      NameIsRejected(max, r);
    } else if r.query == "" && r.frag == "" {
      PrintedIsParsed(max, r);
    } else {
      QueryIsRejected(max, r);
    }
  }
}
