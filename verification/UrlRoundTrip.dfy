/** Composing a URL from components and parsing it gives the components back, at exactly their positions. */
module UrlRoundTrips {
  import opened Bytes
  import opened ParserTypes
  import opened ParserStep
  import opened Lengths
  import opened UrlParser

  /** A registered name or IPv4 address, or a bracketed IPv6 address with an optional zone. */
  datatype HostPart = RegName(name: string) | Literal(addr: string, zone: Option<string>)

  datatype Authority = Authority(schema: string, info: Option<string>, host: HostPart, port: Option<string>)

  /** A path alone, or an absolute URL. A query or a fragment may be there and empty. */
  datatype Components = Components(authority: Option<Authority>, path: string, query: Option<string>,
                                   frag: Option<string>)

  // ----- Text -----

  function ZoneText(z: Option<string>): string { if z.None? then "" else "%" + z.value }

  function HostText(h: HostPart): string {
    match h
    case RegName(n) => n
    case Literal(a, z) => "[" + a + ZoneText(z) + "]"
  }

  function InfoText(info: Option<string>): string { if info.None? then "" else info.value + "@" }

  function PortText(port: Option<string>): string { if port.None? then "" else ":" + port.value }

  function ServerText(a: Authority): string { InfoText(a.info) + HostText(a.host) + PortText(a.port) }

  function AuthorityText(a: Option<Authority>): string {
    if a.None? then "" else a.value.schema + "://" + ServerText(a.value)
  }

  function QueryText(q: Option<string>): string { if q.None? then "" else "?" + q.value }

  function FragText(f: Option<string>): string { if f.None? then "" else "#" + f.value }

  function Text(u: Components): string { AuthorityText(u.authority) + u.path + QueryText(u.query) + FragText(u.frag) }

  // ----- Legal components -----

  predicate AllAlpha(s: string) { forall k :: 0 <= k < |s| ==> IsAlpha(s[k]) }
  predicate AllInfo(s: string) { forall k :: 0 <= k < |s| ==> IsUserinfoChar(s[k]) }
  predicate AllHost(s: string) { forall k :: 0 <= k < |s| ==> IsHostChar(s[k]) }
  predicate AllV6(s: string) { forall k :: 0 <= k < |s| ==> IsV6Char(s[k]) }
  predicate AllZone(s: string) { forall k :: 0 <= k < |s| ==> IsZoneChar(s[k]) }
  predicate AllUrl(s: string) { forall k :: 0 <= k < |s| ==> IsUrlChar(s[k]) }
  predicate AllQuery(s: string) { forall k :: 0 <= k < |s| ==> IsUrlChar(s[k]) || s[k] == '?' }
  predicate AllFrag(s: string) { forall k :: 0 <= k < |s| ==> IsUrlChar(s[k]) || s[k] == '?' || s[k] == '#' }

  predicate LegalHost(h: HostPart) {
    match h
    case RegName(n) => n != "" && AllHost(n)
    case Literal(a, z) => a != "" && AllV6(a) && (z.Some? ==> z.value != "" && AllZone(z.value))
  }

  predicate LegalAuthority(a: Authority) {
    && a.schema != "" && AllAlpha(a.schema)
    && (a.info.Some? ==> a.info.value != "" && AllInfo(a.info.value))
    && LegalHost(a.host)
    && (a.port.Some? ==> a.port.value != "" && AllDigits(a.port.value) && DecValue(a.port.value) <= 0xFFFF)
  }

  predicate Legal(u: Components) {
    && (u.authority.Some? ==> LegalAuthority(u.authority.value))
    && u.path != "" && u.path[0] == '/' && AllUrl(u.path)
    && (u.query.Some? ==> AllQuery(u.query.value))
    && (u.frag.Some? ==> AllFrag(u.frag.value) && (u.frag.value != "" ==> u.frag.value[0] != '#'))
  }

  // ----- The positions that the text gives to its components -----

  /** The host without its brackets, when its text starts at `i`. */
  function HostRange(h: HostPart, i: nat): Range {
    match h
    case RegName(n) => Range(i, |n|)
    case Literal(a, z) => Range(i + 1, |a| + |ZoneText(z)|)
  }

  function WithServer(f: Fields, a: Authority, i: nat): Fields {
    var j := i + |InfoText(a.info)|;
    var k := j + |HostText(a.host)|;
    var g := f[Host := HostRange(a.host, j)];
    var h := if a.info.None? then g else g[Userinfo := Range(i, |a.info.value|)];
    if a.port.None? then h else h[Port := Range(k + 1, |a.port.value|)]
  }

  function WithTail(f: Fields, u: Components): Fields {
    var i := |AuthorityText(u.authority)|;
    var j := i + |u.path|;
    var k := j + |QueryText(u.query)|;
    var g := f[Path := Range(i, |u.path|)];
    var h := if u.query.None? || u.query.value == "" then g else g[Query := Range(j + 1, |u.query.value|)];
    if u.frag.None? || u.frag.value == "" then h else h[Fragment := Range(k + 1, |u.frag.value|)]
  }

  function Expected(u: Components): Fields {
    match u.authority
    case None => WithTail(map[], u)
    case Some(a) => WithServer(WithTail(map[Schema := Range(0, |a.schema|)], u), a, |a.schema| + 3)
  }

  function ExpectedPort(u: Components): nat
    requires Legal(u)
  {
    if u.authority.Some? && u.authority.value.port.Some? then DecValue(u.authority.value.port.value) else 0
  }

  // ----- Text at a position -----

  predicate At(buf: string, i: nat, w: string) { i + |w| <= |buf| && buf[i..i + |w|] == w }

  lemma AtParts(buf: string, i: nat, a: string, b: string)
    requires At(buf, i, a + b)
    ensures At(buf, i, a) && At(buf, i + |a|, b)
  {
    assert buf[i..i + |a|] == buf[i..i + |a + b|][..|a|];
    assert buf[i + |a|..i + |a| + |b|] == buf[i..i + |a + b|][|a|..];
  }

  lemma AtByte(buf: string, i: nat, w: string, k: nat)
    requires At(buf, i, w) && k < |w|
    ensures buf[i + k] == w[k]
  {
    assert buf[i..i + |w|][k] == w[k];
  }

  // ----- The first loop -----

  predicate Moves(c: Cursor, buf: string, i: nat, j: nat, d: Cursor) {
    i <= j <= |buf| && ScanFrom(c, buf, i, j) == Some(d)
  }

  lemma {:induction false} ScanJoin(c: Cursor, buf: string, i: nat, j: nat, d: Cursor, k: nat, e: Cursor)
    requires Moves(c, buf, i, j, d) && Moves(d, buf, j, k, e)
    ensures Moves(c, buf, i, k, e)
    decreases j - i
  {
    hide Advance;
    if i < j { ScanJoin(Advance(c, i, buf[i]).value, buf, i + 1, j, d, k, e); }
  }

  lemma OneByte(c: Cursor, buf: string, i: nat, d: Cursor)
    requires i < |buf| && Advance(c, i, buf[i]) == Some(d)
    ensures Moves(c, buf, i, i + 1, d)
  {
    hide Advance;
    assert ScanFrom(d, buf, i + 1, i + 1) == Some(d);
  }

  /** The cursor inside field `k`, which began at `o`. */
  function Inside(c: Cursor, s: State, k: Field, o: nat, i: nat): Cursor
    requires o <= i
  {
    c.(state := s, last := Some(k), fields := c.fields[k := Range(o, i - o)])
  }

  lemma FirstOf(c: Cursor, buf: string, i: nat, s: State, k: Field)
    requires i < |buf| && i < WIDTH && ParseUrlChar(c.state, buf[i]) == s && FieldOf(s) == Some(k)
    requires !s.ReqServerWithAt? && c.last != Some(k)
    ensures Moves(c, buf, i, i + 1, Inside(c, s, k, i, i + 1))
  {
    hide ParseUrlChar;
    OneByte(c, buf, i, Inside(c, s, k, i, i + 1));
  }

  lemma NextOf(c: Cursor, buf: string, s: State, k: Field, o: nat, i: nat)
    requires o <= i < |buf| && i + 1 - o < WIDTH && ParseUrlChar(s, buf[i]) == s && FieldOf(s) == Some(k)
    requires !s.ReqServerWithAt?
    ensures Moves(Inside(c, s, k, o, i), buf, i, i + 1, Inside(c, s, k, o, i + 1))
  {
    hide ParseUrlChar;
    var d, e := Inside(c, s, k, o, i), Inside(c, s, k, o, i + 1);
    assert d.fields[k := Range(o, i + 1 - o)] == e.fields;
    OneByte(d, buf, i, e);
  }

  lemma {:induction false} RestOf(c: Cursor, buf: string, s: State, k: Field, o: nat, i: nat, j: nat)
    requires o <= i <= j <= |buf| && j - o < WIDTH && FieldOf(s) == Some(k) && !s.ReqServerWithAt?
    requires forall m :: i <= m < j ==> ParseUrlChar(s, buf[m]) == s
    ensures Moves(Inside(c, s, k, o, i), buf, i, j, Inside(c, s, k, o, j))
    decreases j - i
  {
    hide ParseUrlChar, FieldOf, Advance;
    if i < j {
      NextOf(c, buf, s, k, o, i);
      RestOf(c, buf, s, k, o, i + 1, j);
      ScanJoin(Inside(c, s, k, o, i), buf, i, i + 1, Inside(c, s, k, o, i + 1), j, Inside(c, s, k, o, j));
    }
  }

  /** A whole field whose bytes lead to one state. */
  lemma FieldRuns(c: Cursor, buf: string, i: nat, w: string, s: State, k: Field)
    requires At(buf, i, w) && w != "" && i < WIDTH && |w| < WIDTH
    requires FieldOf(s) == Some(k) && !s.ReqServerWithAt? && c.last != Some(k)
    requires ParseUrlChar(c.state, w[0]) == s && forall m :: 1 <= m < |w| ==> ParseUrlChar(s, w[m]) == s
    ensures Moves(c, buf, i, i + |w|, Inside(c, s, k, i, i + |w|))
  {
    hide ParseUrlChar, FieldOf, Advance, At;
    AtEnds(buf, i, w);
    AtByte(buf, i, w, 0);
    FirstOf(c, buf, i, s, k);
    forall m | i + 1 <= m < i + |w| ensures ParseUrlChar(s, buf[m]) == s { AtByte(buf, i, w, m - i); }
    RestOf(c, buf, s, k, i, i + 1, i + |w|);
    ScanJoin(c, buf, i, i + 1, Inside(c, s, k, i, i + 1), i + |w|, Inside(c, s, k, i, i + |w|));
  }

  lemma AtEnds(buf: string, i: nat, w: string)
    requires At(buf, i, w)
    ensures i + |w| <= |buf|
  {
  }

  lemma Skips(c: Cursor, buf: string, i: nat, s: State)
    requires i < |buf| && ParseUrlChar(c.state, buf[i]) == s && Delimiter(s)
    ensures Moves(c, buf, i, i + 1, c.(state := s))
  {
    hide ParseUrlChar;
    OneByte(c, buf, i, c.(state := s));
  }

  lemma SchemaMoves(ch: char)
    requires IsAlpha(ch)
    ensures ParseUrlChar(ReqSpacesBeforeUrl, ch) == ReqSchema && ParseUrlChar(ReqSchema, ch) == ReqSchema
  {
  }

  lemma SchemaEnds()
    ensures ParseUrlChar(ReqSchema, ':') == ReqSchemaSlash && ParseUrlChar(ReqSchemaSlash, '/') == ReqSchemaSlashSlash
    ensures ParseUrlChar(ReqSchemaSlashSlash, '/') == ReqServerStart
  {
  }

  /** The schema and `://`. */
  lemma SchemaScans(buf: string, a: string)
    requires At(buf, 0, a + "://") && a != "" && AllAlpha(a) && |a| < WIDTH
    ensures Moves(Start(false), buf, 0, |a| + 3,
                  Cursor(ReqServerStart, Some(Schema), map[Schema := Range(0, |a|)], false))
  {
    hide ParseUrlChar, IsAlpha, ScanFrom;
    var c := Start(false);
    AtParts(buf, 0, a, "://");
    forall m | 0 <= m < |a|
      ensures ParseUrlChar(ReqSpacesBeforeUrl, a[m]) == ReqSchema && ParseUrlChar(ReqSchema, a[m]) == ReqSchema
    {
      SchemaMoves(a[m]);
    }
    FieldRuns(c, buf, 0, a, ReqSchema, Schema);
    var d := Inside(c, ReqSchema, Schema, 0, |a|);
    SchemaEnds();
    var n := |a|;
    AtByte(buf, n, "://", 0);
    AtByte(buf, n, "://", 1);
    AtByte(buf, n, "://", 2);
    Skips(d, buf, n, ReqSchemaSlash);
    ScanJoin(c, buf, 0, n, d, n + 1, d.(state := ReqSchemaSlash));
    Skips(d.(state := ReqSchemaSlash), buf, n + 1, ReqSchemaSlashSlash);
    ScanJoin(c, buf, 0, n + 1, d.(state := ReqSchemaSlash), n + 2, d.(state := ReqSchemaSlashSlash));
    Skips(d.(state := ReqSchemaSlashSlash), buf, n + 2, ReqServerStart);
    ScanJoin(c, buf, 0, n + 2, d.(state := ReqSchemaSlashSlash), n + 3, d.(state := ReqServerStart));
  }

  predicate ServerChar(ch: char) { IsUserinfoChar(ch) || ch == '[' || ch == ']' }

  lemma ServerMoves(s: State, ch: char)
    requires s.ReqServerStart? || s.ReqServer? || s.ReqServerWithAt?
    ensures ServerChar(ch) ==> ParseUrlChar(s, ch) == ReqServer
    ensures s.ReqServer? ==> ParseUrlChar(s, '@') == ReqServerWithAt && ParseUrlChar(s, '/') == ReqPath
  {
  }

  lemma ServerRuns(c: Cursor, buf: string, i: nat, w: string)
    requires At(buf, i, w) && w != "" && i < WIDTH && |w| < WIDTH && c.state.ReqServerStart? && c.last != Some(Host)
    requires forall m :: 0 <= m < |w| ==> ServerChar(w[m])
    ensures Moves(c, buf, i, i + |w|, Inside(c, ReqServer, Host, i, i + |w|))
  {
    hide ParseUrlChar, ServerChar, At, ScanFrom;
    forall m | 0 <= m < |w|
      ensures ParseUrlChar(ReqServerStart, w[m]) == ReqServer && ParseUrlChar(ReqServer, w[m]) == ReqServer
    {
      ServerMoves(ReqServerStart, w[m]);
      ServerMoves(ReqServer, w[m]);
    }
    FieldRuns(c, buf, i, w, ReqServer, Host);
  }

  /** User information, the at sign, and what follows it. */
  lemma InfoRuns(c: Cursor, buf: string, i: nat, info: string, rest: string)
    requires At(buf, i, info + "@" + rest) && info != "" && rest != "" && i < WIDTH && |info| + 1 + |rest| < WIDTH
    requires c.state.ReqServerStart? && c.last != Some(Host) && AllInfo(info)
    requires forall m :: 0 <= m < |rest| ==> ServerChar(rest[m])
    ensures
      var n := i + |info| + 1 + |rest|;
      Moves(c, buf, i, n, Inside(c, ReqServer, Host, i, n).(foundAt := true))
  {
    hide ParseUrlChar, At, ScanFrom, Advance, IsUserinfoChar;
    AtParts(buf, i, info + "@", rest);
    AtParts(buf, i, info, "@");
    ServerRuns(c, buf, i, info);
    var j := i + |info|;
    var d := Inside(c, ReqServer, Host, i, j);
    AtByte(buf, j, "@", 0);
    AtMark(c, buf, i, j);
    var e := Inside(c, ReqServerWithAt, Host, i, j + 1).(foundAt := true);
    ScanJoin(c, buf, i, j, d, j + 1, e);
    AtEnds(buf, j + 1, rest);
    AtByte(buf, j + 1, rest, 0);
    AfterAt(c, buf, i, j + 1);
    var f := Inside(c.(foundAt := true), ReqServer, Host, i, j + 2);
    ScanJoin(c, buf, i, j + 1, e, j + 2, f);
    forall m | j + 2 <= m < j + 1 + |rest| ensures ParseUrlChar(ReqServer, buf[m]) == ReqServer {
      AtByte(buf, j + 1, rest, m - j - 1);
      ServerMoves(ReqServer, buf[m]);
    }
    RestOf(c.(foundAt := true), buf, ReqServer, Host, i, j + 2, j + 1 + |rest|);
    ScanJoin(c, buf, i, j + 2, f, j + 1 + |rest|, Inside(c.(foundAt := true), ReqServer, Host, i, j + 1 + |rest|));
  }

  lemma AtMark(c: Cursor, buf: string, o: nat, i: nat)
    requires o <= i < |buf| && i + 1 - o < WIDTH && buf[i] == '@'
    ensures Moves(Inside(c, ReqServer, Host, o, i), buf, i, i + 1,
                  Inside(c, ReqServerWithAt, Host, o, i + 1).(foundAt := true))
  {
    hide ParseUrlChar;
    ServerMoves(ReqServer, '@');
    var d, e := Inside(c, ReqServer, Host, o, i), Inside(c, ReqServerWithAt, Host, o, i + 1).(foundAt := true);
    assert d.fields[Host := Range(o, i + 1 - o)] == e.fields;
    OneByte(d, buf, i, e);
  }

  lemma AfterAt(c: Cursor, buf: string, o: nat, i: nat)
    requires o <= i < |buf| && i + 1 - o < WIDTH && ServerChar(buf[i])
    ensures Moves(Inside(c, ReqServerWithAt, Host, o, i).(foundAt := true), buf, i, i + 1,
                  Inside(c.(foundAt := true), ReqServer, Host, o, i + 1))
  {
    hide ParseUrlChar, ServerChar;
    ServerMoves(ReqServerWithAt, buf[i]);
    var d, e := Inside(c, ReqServerWithAt, Host, o, i).(foundAt := true),
        Inside(c.(foundAt := true), ReqServer, Host, o, i + 1);
    assert d.fields[Host := Range(o, i + 1 - o)] == e.fields;
    OneByte(d, buf, i, e);
  }

  lemma HostCharsAreServerChars(ch: char)
    ensures IsHostChar(ch) || IsV6Char(ch) || IsZoneChar(ch) || IsNum(ch) || ch == '%' || ch == ':' ==>
      IsUserinfoChar(ch)
    ensures ch == '[' || ch == ']' || IsUserinfoChar(ch) ==> ServerChar(ch)
  {
  }

  predicate AllServer(w: string) { forall m :: 0 <= m < |w| ==> ServerChar(w[m]) }

  lemma ServerTextChars(h: HostPart, port: Option<string>)
    requires LegalHost(h) && (port.Some? ==> AllDigits(port.value))
    ensures AllServer(HostText(h) + PortText(port)) && HostText(h) + PortText(port) != ""
  {
    hide IsHostChar, IsV6Char, IsZoneChar, IsNum, IsUserinfoChar, ServerChar;
    var w := HostText(h) + PortText(port);
    forall m | 0 <= m < |w| ensures ServerChar(w[m]) { HostCharsAreServerChars(w[m]); }
  }

  /** The whole server part. */
  lemma ServerScans(c: Cursor, buf: string, i: nat, a: Authority)
    requires At(buf, i, ServerText(a)) && i < WIDTH && |ServerText(a)| < WIDTH && LegalAuthority(a)
    requires c.state.ReqServerStart? && c.last != Some(Host) && !c.foundAt
    ensures
      var n := i + |ServerText(a)|;
      Moves(c, buf, i, n, Inside(c, ReqServer, Host, i, n).(foundAt := a.info.Some?))
  {
    hide ScanFrom, At, LegalHost, AllInfo, AllDigits, HostText, PortText, DecValue;
    ServerTextChars(a.host, a.port);
    var rest := HostText(a.host) + PortText(a.port);
    if a.info.None? {
      assert ServerText(a) == rest;
      ServerRuns(c, buf, i, rest);
    } else {
      assert ServerText(a) == a.info.value + "@" + rest;
      InfoRuns(c, buf, i, a.info.value, rest);
    }
  }

  // ----- Path, query and fragment -----

  lemma TailMoves()
    ensures ParseUrlChar(ReqSpacesBeforeUrl, '/') == ReqPath && ParseUrlChar(ReqServer, '/') == ReqPath
    ensures ParseUrlChar(ReqPath, '?') == ReqQueryStringStart && ParseUrlChar(ReqPath, '#') == ReqFragmentStart
    ensures ParseUrlChar(ReqQueryStringStart, '#') == ReqFragmentStart
    ensures ParseUrlChar(ReqQueryString, '#') == ReqFragmentStart
  {
  }

  lemma PathMoves(ch: char)
    requires IsUrlChar(ch)
    ensures ParseUrlChar(ReqPath, ch) == ReqPath
  {
  }

  lemma QueryMoves(ch: char)
    requires IsUrlChar(ch) || ch == '?'
    ensures ParseUrlChar(ReqQueryStringStart, ch) == ReqQueryString
    ensures ParseUrlChar(ReqQueryString, ch) == ReqQueryString
  {
  }

  lemma FragMoves(ch: char)
    requires IsUrlChar(ch) || ch == '?' || ch == '#'
    ensures ParseUrlChar(ReqFragment, ch) == ReqFragment
    ensures ch != '#' ==> ParseUrlChar(ReqFragmentStart, ch) == ReqFragment
  {
  }

  lemma PathScans(c: Cursor, buf: string, i: nat, path: string)
    requires At(buf, i, path) && i < WIDTH && |path| < WIDTH && path != "" && path[0] == '/' && AllUrl(path)
    requires (c.state.ReqSpacesBeforeUrl? || c.state.ReqServer?) && c.last != Some(Path)
    ensures Moves(c, buf, i, i + |path|, Inside(c, ReqPath, Path, i, i + |path|))
  {
    hide ScanFrom, At, ParseUrlChar, IsUrlChar;
    TailMoves();
    forall m | 1 <= m < |path| ensures ParseUrlChar(ReqPath, path[m]) == ReqPath { PathMoves(path[m]); }
    FieldRuns(c, buf, i, path, ReqPath, Path);
  }

  predicate Given(q: Option<string>) { q.Some? && q.value != "" }

  /** The cursor after the query part, if there is one. */
  function QueryEnd(c: Cursor, q: Option<string>, i: nat): Cursor {
    if q.None? then c
    else if q.value == "" then c.(state := ReqQueryStringStart)
    else Inside(c, ReqQueryString, Query, i + 1, i + 1 + |q.value|)
  }

  lemma QueryScans(c: Cursor, buf: string, i: nat, q: Option<string>)
    requires At(buf, i, QueryText(q)) && c.state.ReqPath? && c.last != Some(Query) && (q.Some? ==> AllQuery(q.value))
    requires Given(q) ==> i + 1 < WIDTH && |q.value| < WIDTH
    ensures Moves(c, buf, i, i + |QueryText(q)|, QueryEnd(c, q, i))
  {
    hide ScanFrom, At, ParseUrlChar, IsUrlChar;
    AtEnds(buf, i, QueryText(q));
    if q.None? {
      Stays(c, buf, i);
    } else {
      AtParts(buf, i, "?", q.value);
      AtByte(buf, i, "?", 0);
      TailMoves();
      Skips(c, buf, i, ReqQueryStringStart);
      if q.value != "" {
        forall m | 0 <= m < |q.value| ensures ParseUrlChar(ReqQueryStringStart, q.value[m]) == ReqQueryString
                                              && ParseUrlChar(ReqQueryString, q.value[m]) == ReqQueryString {
          QueryMoves(q.value[m]);
        }
        var d := c.(state := ReqQueryStringStart);
        FieldRuns(d, buf, i + 1, q.value, ReqQueryString, Query);
        ScanJoin(c, buf, i, i + 1, d, i + 1 + |q.value|, QueryEnd(c, q, i));
      }
    }
  }

  lemma Stays(c: Cursor, buf: string, i: nat)
    requires i <= |buf|
    ensures Moves(c, buf, i, i, c)
  {
  }

  function FragEnd(c: Cursor, f: Option<string>, i: nat): Cursor {
    if f.None? then c
    else if f.value == "" then c.(state := ReqFragmentStart)
    else Inside(c, ReqFragment, Fragment, i + 1, i + 1 + |f.value|)
  }

  lemma FragScans(c: Cursor, buf: string, i: nat, f: Option<string>)
    requires At(buf, i, FragText(f)) && c.last != Some(Fragment) && (Given(f) ==> i + 1 < WIDTH && |f.value| < WIDTH)
    requires c.state.ReqPath? || c.state.ReqQueryStringStart? || c.state.ReqQueryString?
    requires f.Some? ==> AllFrag(f.value) && (f.value != "" ==> f.value[0] != '#')
    ensures Moves(c, buf, i, i + |FragText(f)|, FragEnd(c, f, i))
  {
    hide ScanFrom, At, ParseUrlChar, IsUrlChar;
    AtEnds(buf, i, FragText(f));
    if f.None? {
      Stays(c, buf, i);
    } else {
      AtParts(buf, i, "#", f.value);
      AtByte(buf, i, "#", 0);
      TailMoves();
      Skips(c, buf, i, ReqFragmentStart);
      if f.value != "" {
        FragMoves(f.value[0]);
        forall m | 1 <= m < |f.value|
          ensures ParseUrlChar(ReqFragment, f.value[m]) == ReqFragment
        {
          FragMoves(f.value[m]);
        }
        var d := c.(state := ReqFragmentStart);
        FieldRuns(d, buf, i + 1, f.value, ReqFragment, Fragment);
        ScanJoin(c, buf, i, i + 1, d, i + 1 + |f.value|, FragEnd(c, f, i));
      }
    }
  }

  /** The offsets and lengths from the path on fit in 16 bits. */
  predicate TailFits(u: Components) {
    var i := |AuthorityText(u.authority)|;
    var j := i + |u.path|;
    var k := j + |QueryText(u.query)|;
    && i < WIDTH && |u.path| < WIDTH
    && (Given(u.query) ==> j + 1 < WIDTH && |u.query.value| < WIDTH)
    && (Given(u.frag) ==> k + 1 < WIDTH && |u.frag.value| < WIDTH)
  }

  /** Everything after the server part. */
  lemma TailScans(c: Cursor, buf: string, u: Components)
    requires Legal(u) && TailFits(u) && buf == Text(u) && (c.state.ReqSpacesBeforeUrl? || c.state.ReqServer?)
    requires c.last != Some(Path) && c.last != Some(Query) && c.last != Some(Fragment)
    ensures
      var i := |AuthorityText(u.authority)|;
      i <= |buf| && ScanFrom(c, buf, i, |buf|).Some?
      && ScanFrom(c, buf, i, |buf|).value.fields == WithTail(c.fields, u)
      && ScanFrom(c, buf, i, |buf|).value.foundAt == c.foundAt
  {
    hide ScanFrom, At, AuthorityText, QueryText, FragText, AllUrl, AllQuery, AllFrag, LegalAuthority, WithTail, FragEnd;
    var a := AuthorityText(u.authority);
    assert buf == a + u.path + QueryText(u.query) + FragText(u.frag);
    TextAt(buf, a, u.path, QueryText(u.query), FragText(u.frag));
    var i := |a|;
    var j := i + |u.path|;
    var k := j + |QueryText(u.query)|;
    PathScans(c, buf, i, u.path);
    var d := Inside(c, ReqPath, Path, i, j);
    QueryScans(d, buf, j, u.query);
    var e := QueryEnd(d, u.query, j);
    ScanJoin(c, buf, i, j, d, k, e);
    FragScans(e, buf, k, u.frag);
    ScanJoin(c, buf, i, k, e, |buf|, FragEnd(e, u.frag, k));
    TailFields(c, u);
  }

  /** The fields that the first loop fills in from the path on. */
  lemma TailFields(c: Cursor, u: Components)
    ensures
      var i := |AuthorityText(u.authority)|;
      var j := i + |u.path|;
      var k := j + |QueryText(u.query)|;
      var d := FragEnd(QueryEnd(Inside(c, ReqPath, Path, i, j), u.query, j), u.frag, k);
      d.fields == WithTail(c.fields, u) && d.foundAt == c.foundAt
  {
    hide AuthorityText, QueryText;
  }

  lemma TextAt(buf: string, a: string, b: string, c: string, d: string)
    requires buf == a + b + c + d
    ensures At(buf, 0, a) && At(buf, |a|, b) && At(buf, |a| + |b|, c) && At(buf, |a| + |b| + |c|, d)
  {
    assert buf[0..|buf|] == buf;
    AtParts(buf, 0, a + b + c, d);
    AtParts(buf, 0, a + b, c);
    AtParts(buf, 0, a, b);
  }

  // ----- The second scan -----

  /** Scanning the server part from byte `i` comes to byte `j` with these fields in this state. */
  predicate Hops(buf: string, hi: nat, f: Fields, s: HostState, i: nat, g: Fields, n: HostState, j: nat) {
    i <= j <= hi <= |buf| && HostFrom(f, s, buf, i, hi) == HostFrom(g, n, buf, j, hi)
  }

  lemma Hop(buf: string, hi: nat, f: Fields, s: HostState, i: nat, n: HostState)
    requires i < hi <= |buf| && HostChar(s, buf[i]) == n && !n.HostDead?
    ensures Hops(buf, hi, f, s, i, HostMark(f, s, n, i), n, i + 1)
  {
    hide HostChar, HostMark;
  }

  /** The field that a run of host states grows. */
  predicate Grows(n: HostState, k: Field) {
    ((n.Name? || n.V6? || n.Zone?) && k == Host) || (n.PortDigits? && k == Port) || (n.Info? && k == Userinfo)
  }

  lemma HopOn(buf: string, hi: nat, f: Fields, n: HostState, k: Field, o: nat, i: nat)
    requires o <= i < hi <= |buf| && hi < WIDTH && Grows(n, k) && HostChar(n, buf[i]) == n
    ensures Hops(buf, hi, f[k := Range(o, i - o)], n, i, f[k := Range(o, i + 1 - o)], n, i + 1)
  {
    hide HostChar;
    Hop(buf, hi, f[k := Range(o, i - o)], n, i, n);
    assert HostMark(f[k := Range(o, i - o)], n, n, i) == f[k := Range(o, i + 1 - o)];
  }

  lemma {:induction false} HopRest(buf: string, hi: nat, f: Fields, n: HostState, k: Field, o: nat, i: nat, j: nat)
    requires o <= i <= j <= hi <= |buf| && hi < WIDTH && Grows(n, k)
    requires forall m :: i <= m < j ==> HostChar(n, buf[m]) == n
    ensures Hops(buf, hi, f[k := Range(o, i - o)], n, i, f[k := Range(o, j - o)], n, j)
    decreases j - i
  {
    hide HostChar, HostFrom;
    if i < j {
      HopOn(buf, hi, f, n, k, o, i);
      HopRest(buf, hi, f, n, k, o, i + 1, j);
    }
  }

  /** A run that starts its field. */
  lemma HopRun(buf: string, hi: nat, f: Fields, s: HostState, i: nat, w: string, n: HostState, k: Field)
    requires At(buf, i, w) && w != "" && i + |w| <= hi <= |buf| && hi < WIDTH && Grows(n, k) && !n.Zone? && s != n
    requires k == Host ==> RangeOf(f, Host).len == 0
    requires HostChar(s, w[0]) == n && forall m :: 1 <= m < |w| ==> HostChar(n, w[m]) == n
    ensures Hops(buf, hi, f, s, i, f[k := Range(i, |w|)], n, i + |w|)
  {
    hide HostChar, HostFrom, At;
    AtByte(buf, i, w, 0);
    Hop(buf, hi, f, s, i, n);
    assert HostMark(f, s, n, i) == f[k := Range(i, 1)];
    forall m | i + 1 <= m < i + |w| ensures HostChar(n, buf[m]) == n { AtByte(buf, i, w, m - i); }
    HopRest(buf, hi, f, n, k, i, i + 1, i + |w|);
  }

  lemma InfoMoves(ch: char)
    ensures IsUserinfoChar(ch) ==> HostChar(InfoStart, ch) == Info && HostChar(Info, ch) == Info
    ensures HostChar(Info, '@') == HostStart
  {
  }

  lemma InfoHops(buf: string, hi: nat, f: Fields, i: nat, info: string)
    requires At(buf, i, info + "@") && info != "" && AllInfo(info) && i + |info| + 1 <= hi <= |buf| && hi < WIDTH
    ensures Hops(buf, hi, f, InfoStart, i, f[Userinfo := Range(i, |info|)], HostStart, i + |info| + 1)
  {
    hide HostChar, HostFrom, At, IsUserinfoChar;
    AtParts(buf, i, info, "@");
    forall m | 0 <= m < |info|
      ensures HostChar(InfoStart, info[m]) == Info && HostChar(Info, info[m]) == Info
    {
      InfoMoves(info[m]);
    }
    HopRun(buf, hi, f, InfoStart, i, info, Info, Userinfo);
    AtByte(buf, i + |info|, "@", 0);
    InfoMoves('@');
    Hop(buf, hi, f[Userinfo := Range(i, |info|)], Info, i + |info|, HostStart);
  }

  lemma NameMoves(ch: char)
    ensures IsHostChar(ch) ==> HostChar(HostStart, ch) == Name && HostChar(Name, ch) == Name
    ensures HostChar(Name, ':') == PortStart && HostChar(V6End, ':') == PortStart
  {
  }

  lemma V6Moves(ch: char)
    ensures HostChar(HostStart, '[') == V6Start && HostChar(V6, '%') == ZoneStart
    ensures HostChar(V6, ']') == V6End && HostChar(Zone, ']') == V6End
    ensures IsV6Char(ch) ==> HostChar(V6Start, ch) == V6 && HostChar(V6, ch) == V6
    ensures IsZoneChar(ch) ==> HostChar(ZoneStart, ch) == Zone && HostChar(Zone, ch) == Zone
  {
  }

  /** The state after a host. */
  function HostEnd(h: HostPart): HostState { if h.RegName? then Name else V6End }

  lemma NameHops(buf: string, hi: nat, f: Fields, i: nat, n: string)
    requires At(buf, i, n) && n != "" && AllHost(n) && i + |n| <= hi <= |buf| && hi < WIDTH && RangeOf(f, Host).len == 0
    ensures Hops(buf, hi, f, HostStart, i, f[Host := Range(i, |n|)], Name, i + |n|)
  {
    hide HostChar, HostFrom, At, IsHostChar;
    forall m | 0 <= m < |n|
      ensures HostChar(HostStart, n[m]) == Name && HostChar(Name, n[m]) == Name
    {
      NameMoves(n[m]);
    }
    HopRun(buf, hi, f, HostStart, i, n, Name, Host);
  }

  lemma AddrHops(buf: string, hi: nat, f: Fields, i: nat, a: string)
    requires At(buf, i, "[" + a) && a != "" && AllV6(a) && i + 1 + |a| <= hi <= |buf| && hi < WIDTH
    requires RangeOf(f, Host).len == 0
    ensures Hops(buf, hi, f, HostStart, i, f[Host := Range(i + 1, |a|)], V6, i + 1 + |a|)
  {
    hide HostChar, HostFrom, At, IsV6Char;
    AtParts(buf, i, "[", a);
    AtByte(buf, i, "[", 0);
    V6Moves('[');
    Hop(buf, hi, f, HostStart, i, V6Start);
    forall m | 0 <= m < |a| ensures HostChar(V6Start, a[m]) == V6 && HostChar(V6, a[m]) == V6 { V6Moves(a[m]); }
    HopRun(buf, hi, f, V6Start, i + 1, a, V6, Host);
  }

  lemma ZoneHops(buf: string, hi: nat, f: Fields, o: nat, i: nat, z: string)
    requires At(buf, i, "%" + z) && z != "" && AllZone(z) && o <= i && i + 1 + |z| <= hi <= |buf| && hi < WIDTH
    ensures Hops(buf, hi, f[Host := Range(o, i - o)], V6, i, f[Host := Range(o, i + 1 + |z| - o)], Zone, i + 1 + |z|)
  {
    hide HostChar, HostFrom, At, IsZoneChar;
    AtParts(buf, i, "%", z);
    AtByte(buf, i, "%", 0);
    AtByte(buf, i + 1, z, 0);
    V6Moves(z[0]);
    var g := f[Host := Range(o, i - o)];
    Hop(buf, hi, g, V6, i, ZoneStart);
    assert HostMark(g, V6, ZoneStart, i) == f[Host := Range(o, i + 1 - o)];
    Hop(buf, hi, f[Host := Range(o, i + 1 - o)], ZoneStart, i + 1, Zone);
    assert HostMark(f[Host := Range(o, i + 1 - o)], ZoneStart, Zone, i + 1) == f[Host := Range(o, i + 2 - o)];
    forall m | i + 2 <= m < i + 1 + |z| ensures HostChar(Zone, buf[m]) == Zone {
      AtByte(buf, i + 1, z, m - i - 1);
      V6Moves(buf[m]);
    }
    HopRest(buf, hi, f, Zone, Host, o, i + 2, i + 1 + |z|);
  }

  lemma LiteralHops(buf: string, hi: nat, f: Fields, i: nat, a: string, z: Option<string>)
    requires At(buf, i, HostText(Literal(a, z))) && LegalHost(Literal(a, z)) && RangeOf(f, Host).len == 0
    requires i + |HostText(Literal(a, z))| <= hi <= |buf| && hi < WIDTH
    ensures Hops(buf, hi, f, HostStart, i, f[Host := Range(i + 1, |a| + |ZoneText(z)|)], V6End,
                 i + |HostText(Literal(a, z))|)
  {
    hide HostChar, HostFrom, At, AllV6, AllZone, HostMark;
    AtParts(buf, i, "[" + a + ZoneText(z), "]");
    AtParts(buf, i, "[" + a, ZoneText(z));
    AddrHops(buf, hi, f, i, a);
    var j := i + 1 + |a|;
    var k := j + |ZoneText(z)|;
    AtByte(buf, k, "]", 0);
    V6Moves(']');
    if z.Some? { ZoneHops(buf, hi, f, i + 1, j, z.value); }
    var g := f[Host := Range(i + 1, k - i - 1)];
    var s := if z.Some? then Zone else V6;
    Hop(buf, hi, g, s, k, V6End);
    assert HostMark(g, s, V6End, k) == g by { NoMark(g, s, V6End, k); }
  }

  lemma NoMark(f: Fields, s: HostState, n: HostState, i: nat)
    requires n.V6End? || n.PortStart? || n.HostStart? || n.V6Start?
    ensures HostMark(f, s, n, i) == f
  {
  }

  lemma HostHops(buf: string, hi: nat, f: Fields, i: nat, h: HostPart)
    requires At(buf, i, HostText(h)) && LegalHost(h) && RangeOf(f, Host).len == 0
    requires i + |HostText(h)| <= hi <= |buf| && hi < WIDTH
    ensures Hops(buf, hi, f, HostStart, i, f[Host := HostRange(h, i)], HostEnd(h), i + |HostText(h)|)
  {
    hide HostFrom, At, AllV6, AllZone, AllHost;
    match h
    case RegName(n) => NameHops(buf, hi, f, i, n);
    case Literal(a, z) => LiteralHops(buf, hi, f, i, a, z);
  }

  lemma PortMoves(ch: char)
    ensures IsNum(ch) ==> HostChar(PortStart, ch) == PortDigits && HostChar(PortDigits, ch) == PortDigits
  {
  }

  lemma PortHops(buf: string, hi: nat, f: Fields, s: HostState, i: nat, port: string)
    requires At(buf, i, ":" + port) && port != "" && AllDigits(port) && i + 1 + |port| == hi <= |buf| && hi < WIDTH
    requires (s.Name? || s.V6End?)
    ensures HostFrom(f, s, buf, i, hi) == Some(f[Port := Range(i + 1, |port|)])
  {
    hide HostChar, HostFrom, At, IsNum, HostMark;
    AtParts(buf, i, ":", port);
    AtByte(buf, i, ":", 0);
    NameMoves(':');
    Hop(buf, hi, f, s, i, PortStart);
    NoMark(f, s, PortStart, i);
    forall m | 0 <= m < |port|
      ensures HostChar(PortStart, port[m]) == PortDigits && HostChar(PortDigits, port[m]) == PortDigits
    {
      PortMoves(port[m]);
    }
    HopRun(buf, hi, f, PortStart, i + 1, port, PortDigits, Port);
    HostEnds(f[Port := Range(i + 1, |port|)], PortDigits, buf, hi);
  }

  lemma HostEnds(f: Fields, s: HostState, buf: string, hi: nat)
    requires hi <= |buf| && HostDone(s)
    ensures HostFrom(f, s, buf, hi, hi) == Some(f)
  {
  }

  /** The second scan finds user information, host and port of a legal server part. */
  lemma HostScans(f: Fields, buf: string, i: nat, a: Authority)
    requires At(buf, i, ServerText(a)) && LegalAuthority(a) && i + |ServerText(a)| < WIDTH && RangeOf(f, Host).len == 0
    ensures i + |ServerText(a)| <= |buf|
    ensures HostFrom(f, if a.info.Some? then InfoStart else HostStart, buf, i, i + |ServerText(a)|)
      == Some(WithServer(f, a, i))
  {
    hide HostFrom, At, LegalHost, AllInfo, AllDigits, HostText, HostRange, DecValue;
    AtEnds(buf, i, ServerText(a));
    var hi := i + |ServerText(a)|;
    AtParts(buf, i, InfoText(a.info) + HostText(a.host), PortText(a.port));
    AtParts(buf, i, InfoText(a.info), HostText(a.host));
    var j := i + |InfoText(a.info)|;
    var k := j + |HostText(a.host)|;
    var g := if a.info.None? then f else f[Userinfo := Range(i, |a.info.value|)];
    if a.info.Some? { InfoHops(buf, hi, f, i, a.info.value); }
    HostHops(buf, hi, g, j, a.host);
    var h := g[Host := HostRange(a.host, j)];
    if a.port.None? {
      HostEnds(h, HostEnd(a.host), buf, hi);
    } else {
      PortHops(buf, hi, h, HostEnd(a.host), k, a.port.value);
    }
    UpdatesCommute(f, a, i);
  }

  lemma UpdatesCommute(f: Fields, a: Authority, i: nat)
    ensures
      var j := i + |InfoText(a.info)|;
      var k := j + |HostText(a.host)|;
      var h := (if a.info.None? then f else f[Userinfo := Range(i, |a.info.value|)])[Host := HostRange(a.host, j)];
      WithServer(f, a, i) == if a.port.None? then h else h[Port := Range(k + 1, |a.port.value|)]
  {
    hide HostText, HostRange, InfoText;
  }

  // ----- The round trip -----

  /** The narrowed host replaces the server range, whenever that was entered. */
  lemma ServerReplaces(f: Fields, u: Components, a: Authority, i: nat, x: Range, y: Range)
    ensures WithServer(WithTail(f[Host := x], u)[Host := y], a, i) == WithServer(WithTail(f, u), a, i)
    ensures Host in WithTail(f[Host := x], u) && WithTail(f[Host := x], u)[Host] == x
  {
    hide HostText, HostRange, InfoText, AuthorityText, QueryText;
  }

  lemma AbsoluteScans(u: Components)
    requires Legal(u) && TailFits(u) && u.authority.Some?
    ensures
      var a, buf := u.authority.value, Text(u);
      var o := ScanFrom(Start(false), buf, 0, |buf|);
      var server := Range(|a.schema| + 3, |ServerText(a)|);
      o.Some? && o.value.foundAt == a.info.Some?
      && o.value.fields == WithTail(map[Schema := Range(0, |a.schema|), Host := server], u)
      && At(buf, |a.schema| + 3, ServerText(a))
  {
    hide ScanFrom, At, ServerText, QueryText, FragText, AllUrl, AllQuery, AllFrag, LegalAuthority, WithTail;
    var a, buf := u.authority.value, Text(u);
    var head := a.schema + "://";
    TextAt(buf, head + ServerText(a), u.path, QueryText(u.query), FragText(u.frag));
    AtParts(buf, 0, head, ServerText(a));
    LegalSchema(a);
    SchemaScans(buf, a.schema);
    var i := |a.schema| + 3;
    var c := Cursor(ReqServerStart, Some(Schema), map[Schema := Range(0, |a.schema|)], false);
    ServerScans(c, buf, i, a);
    var n := i + |ServerText(a)|;
    var d := Inside(c, ReqServer, Host, i, n).(foundAt := a.info.Some?);
    ScanJoin(Start(false), buf, 0, i, c, n, d);
    TailScans(d, buf, u);
    ScanJoin(Start(false), buf, 0, n, d, |buf|, ScanFrom(d, buf, n, |buf|).value);
    assert d.fields == map[Schema := Range(0, |a.schema|), Host := Range(i, |ServerText(a)|)];
  }

  lemma LegalSchema(a: Authority)
    requires LegalAuthority(a)
    ensures a.schema != "" && AllAlpha(a.schema)
  {
  }

  lemma AssembledPort(buf: string, f: Fields, i: nat, port: string)
    requires InBuffer(f, |buf|) && Port in f && f[Port] == Range(i, |port|) && At(buf, i, port)
    requires AllDigits(port) && DecValue(port) <= 0xFFFF
    ensures Assemble(false, buf, f) == Parsed(f, DecValue(port))
  {
    hide AllDigits, DecValue, PortFrom;
    assert buf[i..i] == "" && DecValue("") == 0 by { EmptyDecimal(); }
    PortValue(buf, i, i, i + |port|);
  }

  lemma PortAt(buf: string, i: nat, a: Authority)
    requires At(buf, i, ServerText(a)) && a.port.Some?
    ensures At(buf, i + |InfoText(a.info)| + |HostText(a.host)| + 1, a.port.value)
  {
    hide At, InfoText, HostText;
    AtParts(buf, i, InfoText(a.info) + HostText(a.host), PortText(a.port));
    AtParts(buf, i + |InfoText(a.info) + HostText(a.host)|, ":", a.port.value);
  }

  lemma LegalPort(a: Authority)
    requires LegalAuthority(a)
    ensures a.port.Some? ==> AllDigits(a.port.value) && DecValue(a.port.value) <= 0xFFFF
  {
  }

  lemma AbsoluteParses(u: Components)
    requires Legal(u) && TailFits(u) && u.authority.Some?
    ensures ParseUrl(false, Text(u)) == Parsed(Expected(u), ExpectedPort(u))
  {
    hide ScanFrom, At, ServerText, QueryText, FragText, AllUrl, AllQuery, AllFrag, WithTail, WithServer, HostFrom,
         LegalAuthority,
         PortFrom, AllDigits, DecValue, Assemble;
    var a, buf := u.authority.value, Text(u);
    AbsoluteScans(u);
    var c := ScanFrom(Start(false), buf, 0, |buf|).value;
    var i := |a.schema| + 3;
    var server := Range(i, |ServerText(a)|);
    var base: Fields := map[Schema := Range(0, |a.schema|)];
    assert base[Host := server] == map[Schema := Range(0, |a.schema|), Host := server];
    ScanInBuffer(Start(false), buf, 0, |buf|);
    ScanClean(Start(false), buf, 0, |buf|);
    ServerReplaces(base, u, a, i, server, Range(i, 0));
    HostStartsInBuffer(c, buf);
    HostScans(c.fields[Host := Range(i, 0)], buf, i, a);
    assert HostFields(c.fields, buf, c.foundAt) == Some(Expected(u));
    ServerKeys(WithTail(base, u), u, a, i);
    LegalPort(a);
    if a.port.Some? {
      PortAt(buf, i, a);
      AssembledPort(buf, Expected(u), i + |InfoText(a.info)| + |HostText(a.host)| + 1, a.port.value);
    } else {
      NoPortAssembled(buf, Expected(u));
    }
  }

  lemma NoPortAssembled(buf: string, f: Fields)
    requires InBuffer(f, |buf|) && Port !in f
    ensures Assemble(false, buf, f) == Parsed(f, 0)
  {
  }

  lemma ServerKeys(f: Fields, u: Components, a: Authority, i: nat)
    requires f == WithTail(map[Schema := Range(0, |a.schema|)], u)
    ensures
      var g := WithServer(f, a, i);
      (Port in g <==> a.port.Some?)
      && (a.port.Some? ==> g[Port] == Range(i + |InfoText(a.info)| + |HostText(a.host)| + 1, |a.port.value|))
  {
    hide HostText, HostRange, InfoText, AuthorityText, QueryText;
  }

  lemma PathParses(u: Components)
    requires Legal(u) && TailFits(u) && u.authority.None?
    ensures ParseUrl(false, Text(u)) == Parsed(Expected(u), ExpectedPort(u))
  {
    hide ScanFrom, QueryText, FragText, AllUrl, AllQuery, AllFrag, Assemble;
    var buf := Text(u);
    TailScans(Start(false), buf, u);
    ScanInBuffer(Start(false), buf, 0, |buf|);
    NoPortAssembled(buf, Expected(u));
  }

  // ----- Offsets and lengths of 16 bits -----

  predicate InWidth(r: Range) { r.off < WIDTH && r.len < WIDTH }

  predicate AllFit(f: Fields) { forall k :: k in f ==> InWidth(f[k]) }

  lemma Low16Fits(n: nat)
    ensures Low16(n) < WIDTH
  {
  }

  lemma LongerFits(r: Range)
    requires r.off < WIDTH
    ensures InWidth(Longer(r))
  {
    hide Low16;
    Low16Fits(r.len + 1);
  }

  lemma {:induction false} ScanFits(c: Cursor, buf: string, i: nat, j: nat)
    requires i <= j <= |buf| && AllFit(c.fields)
    ensures ScanFrom(c, buf, i, j).Some? ==> AllFit(ScanFrom(c, buf, i, j).value.fields)
    decreases j - i
  {
    hide ParseUrlChar, FieldOf, Delimiter, Longer, Low16;
    if i < j {
      var o := Advance(c, i, buf[i]);
      Low16Fits(i);
      var uf := FieldOf(ParseUrlChar(c.state, buf[i]));
      if uf.Some? { LongerFits(RangeOf(c.fields, uf.value)); }
      if o.Some? { ScanFits(o.value, buf, i + 1, j); }
    }
  }

  lemma MarkFits(f: Fields, s: HostState, n: HostState, i: nat)
    requires AllFit(f)
    ensures AllFit(HostMark(f, s, n, i))
  {
    hide Longer, Low16;
    Low16Fits(i);
    forall r: Range | r.off < WIDTH ensures InWidth(Longer(r)) { LongerFits(r); }
  }

  lemma {:induction false} HostFits(f: Fields, s: HostState, buf: string, i: nat, j: nat)
    requires i <= j <= |buf| && AllFit(f)
    ensures HostFrom(f, s, buf, i, j).Some? ==> AllFit(HostFrom(f, s, buf, i, j).value)
    decreases j - i
  {
    hide HostChar, HostMark;
    if i < j {
      var n := HostChar(s, buf[i]);
      MarkFits(f, s, n, i);
      HostFits(HostMark(f, s, n, i), n, buf, i + 1, j);
    }
  }

  /** Whatever is accepted is described in 16 bits. */
  lemma ParsedFits(connect: bool, buf: string)
    ensures ParseUrl(connect, buf).Parsed? ==> AllFit(ParseUrl(connect, buf).fields)
  {
    hide ScanFrom, HostFrom, PortFrom, AllFit;
    NothingFits();
    ScanFits(Start(connect), buf, 0, |buf|);
    if buf != "" && ScanFrom(Start(connect), buf, 0, |buf|).Some? {
      var c := ScanFrom(Start(connect), buf, 0, |buf|).value;
      ScanInBuffer(Start(connect), buf, 0, |buf|);
      if Host in c.fields {
        var h := c.fields[Host];
        NoLengthFits(c.fields);
        HostFits(c.fields[Host := h.(len := 0)], if c.foundAt then InfoStart else HostStart, buf, h.off, End(h));
      }
    }
  }

  lemma NothingFits()
    ensures AllFit(map[])
  {
  }

  lemma NoLengthFits(f: Fields)
    requires Host in f && AllFit(f)
    ensures AllFit(f[Host := f[Host].(len := 0)])
  {
  }

  /** What it takes for the expected fields to fit. */
  lemma ExpectedFits(u: Components)
    requires AllFit(Expected(u))
    ensures TailFits(u)
  {
    hide AuthorityText, QueryText, InfoText, HostText, HostRange;
    var f := Expected(u);
    assert Path in f && InWidth(f[Path]);
    if Given(u.query) { assert Query in f && InWidth(f[Query]); }
    if Given(u.frag) { assert Fragment in f && InWidth(f[Fragment]); }
  }

  /** For all legal components: the composed text is accepted and its fields are the positions, lengths and port number
      of the components, exactly when each of these positions and lengths is below 65536. */
  lemma UrlRoundTrip(u: Components)
    requires Legal(u)
    ensures ParseUrl(false, Text(u)) == Parsed(Expected(u), ExpectedPort(u)) <==> AllFit(Expected(u))
  {
    hide Legal, ParseUrl, Text, Expected, ExpectedPort, AllFit;
    ParsedFits(false, Text(u));
    if AllFit(Expected(u)) {
      ExpectedFits(u);
      if u.authority.Some? {
        AbsoluteParses(u);
      } else {
        PathParses(u);
      }
    }
  }

  // ----- Longer buffers -----

  lemma WrapNext(i: nat)
    ensures Low16(Low16(i) + 1) == Low16(i + 1)
  {
  }

  function LongPath(i: nat): Cursor { Cursor(ReqPath, Some(Path), map[Path := Range(0, Low16(i))], false) }

  lemma {:induction false} LongPathScans(buf: string, i: nat)
    requires i <= |buf| && AllUrl(buf)
    ensures ScanFrom(LongPath(i), buf, i, |buf|) == Some(LongPath(|buf|))
    decreases |buf| - i
  {
    hide ParseUrlChar, IsUrlChar, Low16;
    if i < |buf| {
      PathMoves(buf[i]);
      WrapNext(i);
      assert LongPath(i).fields[Path := Range(0, Low16(i + 1))] == LongPath(i + 1).fields;
      LongPathScans(buf, i + 1);
    }
  }

  /** Without the bound on the buffer the length is only right modulo 65536: for a path, exactly the buffers of at
      most 65535 bytes are described by their fields. */
  lemma LengthWraps(path: string)
    requires path != "" && path[0] == '/' && AllUrl(path)
    ensures ParseUrl(false, path) == Parsed(map[Path := Range(0, |path| % WIDTH)], 0)
    ensures ParseUrl(false, path).fields[Path] == Range(0, |path|) <==> |path| < WIDTH
  {
    hide ParseUrlChar, IsUrlChar;
    TailMoves();
    assert Advance(Start(false), 0, path[0]) == Some(LongPath(1));
    LongPathScans(path, 1);
    ScanInBuffer(Start(false), path, 0, |path|);
    NoPortAssembled(path, map[Path := Range(0, Low16(|path|))]);
  }
}
