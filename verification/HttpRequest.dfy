/** The request object: its header map, its printer `toString`, and the callbacks that fill it in. */
module HttpRequests {
  import opened Bytes
  import opened ParserTypes

  // ----- std::map with CaseInsensitiveLess -----

  datatype Header = Header(name: string, value: string)

  /** What `strcasecmp` compares: the bytes before a NUL, without case. */
  function Key(name: string): string { FoldAll(CStr(name)) }

  function CStr(s: string): string {
    if s == "" || s[0] == '\0' then "" else [s[0]] + CStr(s[1..])
  }

  predicate Less(a: string, b: string) {
    b != "" && (a == "" || a[0] < b[0] || (a[0] == b[0] && Less(a[1..], b[1..])))
  }

  /** Map order: keys strictly ascending, so that no two names differ in case only. */
  ghost predicate Sorted(h: seq<Header>) {
    forall i, j :: 0 <= i < j < |h| ==> Less(Key(h[i].name), Key(h[j].name))
  }

  /** `getHeader` without its default. */
  function Lookup(h: seq<Header>, name: string): Option<string> {
    if h == [] then None else if Key(h[0].name) == Key(name) then Some(h[0].value) else Lookup(h[1..], name)
  }

  /** `mHeaders[name] = value`: an existing key keeps its spelling. */
  function Insert(h: seq<Header>, name: string, value: string): seq<Header> {
    if h == [] || Less(Key(name), Key(h[0].name)) then [Header(name, value)] + h
    else if Key(h[0].name) == Key(name) then [Header(h[0].name, value)] + h[1..]
    else [h[0]] + Insert(h[1..], name, value)
  }

  /** `erase`. */
  function Erase(h: seq<Header>, name: string): seq<Header> {
    if h == [] then [] else if Key(h[0].name) == Key(name) then h[1..] else [h[0]] + Erase(h[1..], name)
  }

  lemma {:induction false} LessIrreflexive(a: string)
    ensures !Less(a, a)
    decreases |a|
  {
    if a != "" { LessIrreflexive(a[1..]); }
  }

  lemma {:induction false} LessTransitive(a: string, b: string, c: string)
    requires Less(a, b) && Less(b, c)
    ensures Less(a, c)
    decreases |a|
  {
    if a != "" && a[0] == b[0] && b[0] == c[0] { LessTransitive(a[1..], b[1..], c[1..]); }
  }

  lemma {:induction false} LessTotal(a: string, b: string)
    ensures Less(a, b) || a == b || Less(b, a)
    decreases |a|
  {
    if a != "" && b != "" && a[0] == b[0] {
      LessTotal(a[1..], b[1..]);
      assert a == [a[0]] + a[1..] && b == [b[0]] + b[1..];
    }
  }

  lemma SortedTail(h: seq<Header>)
    requires Sorted(h) && h != []
    ensures Sorted(h[1..]) && forall j :: 0 <= j < |h[1..]| ==> Less(Key(h[0].name), Key(h[1..][j].name))
  {
    forall j | 0 <= j < |h[1..]| ensures Less(Key(h[0].name), Key(h[1..][j].name)) { assert h[1..][j] == h[j + 1]; }
  }

  lemma SortedCons(x: Header, h: seq<Header>)
    requires Sorted(h) && forall j :: 0 <= j < |h| ==> Less(Key(x.name), Key(h[j].name))
    ensures Sorted([x] + h)
  {
    hide Key;
  }

  lemma {:induction false} LookupAbsent(h: seq<Header>, name: string)
    requires forall j :: 0 <= j < |h| ==> Less(Key(name), Key(h[j].name))
    ensures Lookup(h, name) == None
    decreases |h|
  {
    hide Key, Less;
    if h != [] {
      LessIrreflexive(Key(name));
      assert Less(Key(name), Key(h[0].name));
      assert forall j :: 0 <= j < |h[1..]| ==> h[1..][j] == h[j + 1];
      LookupAbsent(h[1..], name);
    }
  }

  /** The lower bound of a sorted map is below what is inserted into its rest. */
  lemma {:induction false} InsertBelow(h: seq<Header>, low: string, name: string, value: string)
    requires (forall j :: 0 <= j < |h| ==> Less(low, Key(h[j].name))) && Less(low, Key(name))
    ensures forall j :: 0 <= j < |Insert(h, name, value)| ==> Less(low, Key(Insert(h, name, value)[j].name))
    decreases |h|
  {
    hide Key, Less;
    if h != [] && !Less(Key(name), Key(h[0].name)) && Key(h[0].name) != Key(name) {
      assert forall j :: 0 <= j < |h[1..]| ==> h[1..][j] == h[j + 1];
      InsertBelow(h[1..], low, name, value);
    }
  }

  /** Assignment to a map: the order is kept, the key has the new value, and every other key its old one. */
  lemma {:induction false} InsertLookup(h: seq<Header>, name: string, value: string, other: string)
    requires Sorted(h)
    ensures Sorted(Insert(h, name, value))
    ensures Lookup(Insert(h, name, value), other) == if Key(other) == Key(name) then Some(value) else Lookup(h, other)
    decreases |h|
  {
    hide Key, Less;
    if h == [] {
      assert Insert(h, name, value) == [Header(name, value)];
    } else {
      var k := Key(name);
      SortedTail(h);
      LessTotal(k, Key(h[0].name));
      LessIrreflexive(k);
      if Less(k, Key(h[0].name)) {
        forall j | 0 <= j < |h| ensures Less(k, Key(h[j].name)) {
          if j > 0 { LessTransitive(k, Key(h[0].name), Key(h[j].name)); }
        }
        SortedCons(Header(name, value), h);
        assert ([Header(name, value)] + h)[1..] == h;
        if Key(other) == k { }
      } else if Key(h[0].name) == k {
        SortedCons(Header(h[0].name, value), h[1..]);
        assert ([Header(h[0].name, value)] + h[1..])[1..] == h[1..];
      } else {
        InsertLookup(h[1..], name, value, other);
        InsertBelow(h[1..], Key(h[0].name), name, value);
        SortedCons(h[0], Insert(h[1..], name, value));
        assert ([h[0]] + Insert(h[1..], name, value))[1..] == Insert(h[1..], name, value);
      }
    }
  }

  // ----- The object -----

  datatype Request = Request(
    verb: Option<Method>, version: string, path: string, query: string, frag: string, body: string,
    keepAlive: bool, webSocket: bool, tmpHeader: string, headers: seq<Header>)

  const FRESH := Request.Request(Some(GET), "1.1", "/", "", "", "", false, false, "", [])

  /** `httpMethodToString` prints the identifier, which differs from the wire name for M-SEARCH. */
  function MethodName(m: Option<Method>): string {
    match m
    case None => "invalid_method"
    case Some(MSEARCH) => "MSEARCH"
    case Some(v) => MethodString(v)
  }

  /** A number as `std::to_string` writes it. */
  function Decimal(n: nat): string {
    if n < 10 then [('0' as int + n) as char] else Decimal(n / 10) + [('0' as int + n % 10) as char]
  }

  function HeaderLine(name: string, value: string): string { name + ":" + value + "\r\n" }

  function RequestLine(r: Request): string {
    MethodName(r.verb) + " " + r.path + " "
    + (if r.query == "" then "" else "?") + r.query + (if r.frag == "" then "" else "#") + r.frag
    + "HTTP/" + r.version + "\r\n"
  }

  function ConnectionLine(r: Request): string {
    if r.webSocket then "" else HeaderLine("connection", if r.keepAlive then "keep-alive" else "close")
  }

  /** The header lines from the `i`-th on; the connection header is written by the line above. */
  function HeaderLines(r: Request, i: nat): string
    requires i <= |r.headers|
    decreases |r.headers| - i
  {
    if i == |r.headers| then ""
    else if !r.webSocket && Key(r.headers[i].name) == "connection" then HeaderLines(r, i + 1)
    else HeaderLine(r.headers[i].name, r.headers[i].value) + HeaderLines(r, i + 1)
  }

  function LengthLine(r: Request): string {
    if r.body != "" && Lookup(r.headers, "content-length").None? then HeaderLine("content-length", Decimal(|r.body|))
      else ""
  }

  /** `toString`. The query and the fragment come after the space that ends the path. */
  function Print(r: Request): string {
    RequestLine(r) + ConnectionLine(r) + HeaderLines(r, 0) + LengthLine(r) + "\r\n" + r.body
  }

  lemma HeaderLinesFrom(r: Request, i: nat, s: string)
    requires i < |r.headers|
    ensures s + HeaderLines(r, i) ==
      if !r.webSocket && Key(r.headers[i].name) == "connection" then s + HeaderLines(r, i + 1)
      else s + HeaderLine(r.headers[i].name, r.headers[i].value) + HeaderLines(r, i + 1)
  {
    hide Key, HeaderLine;
    var line, rest := HeaderLine(r.headers[i].name, r.headers[i].value), HeaderLines(r, i + 1);
    assert s + (line + rest) == s + line + rest;
  }

  lemma HeaderLinesEnd(r: Request)
    ensures HeaderLines(r, |r.headers|) == ""
  {
  }

  lemma RequestLineIs(r: Request)
    ensures RequestLine(r) ==
      MethodName(r.verb) + " " + r.path + " " + (if r.query == "" then "" else "?") + r.query
      + (if r.frag == "" then "" else "#") + r.frag + "HTTP/" + r.version + "\r\n"
  {
    hide MethodName;
  }

  // ----- The callbacks of http11_parser.cpp -----

  function Deliver(r: Request, e: Event): Request {
    match e
    case Data(Url, s) => r.(path := s)
    case Data(Body, s) => r.(body := r.body + s)
    case Data(HeaderFieldData, s) => r.(tmpHeader := s)
    case Data(HeaderValueData, s) =>
      var k := if Key(r.tmpHeader) == "connection" then r.(keepAlive := Key(s) != "close") else r;
      k.(headers := Insert(r.headers, r.tmpHeader, s))
    case HeadersComplete(m, major, minor) => r.(verb := Some(m), version := Decimal(major) + "." + Decimal(minor))
    case _ => r
  }

  function DeliverAll(r: Request, log: seq<Event>): Request {
    if log == [] then r else Deliver(DeliverAll(r, log[..|log| - 1]), log[|log| - 1])
  }

  lemma DeliverSnoc(r: Request, log: seq<Event>, e: Event)
    ensures DeliverAll(r, log + [e]) == Deliver(DeliverAll(r, log), e)
  {
    assert (log + [e])[..|log|] == log;
  }

  lemma {:induction false} DeliverConcat(r: Request, a: seq<Event>, b: seq<Event>)
    ensures DeliverAll(r, a + b) == DeliverAll(DeliverAll(r, a), b)
    decreases |b|
  {
    if b == [] {
      assert a + b == a;
    } else {
      var init, last := b[..|b| - 1], b[|b| - 1];
      assert b == init + [last] && a + b == (a + init) + [last];
      DeliverConcat(r, a, init);
      DeliverSnoc(r, a + init, last);
      DeliverSnoc(DeliverAll(r, a), init, last);
    }
  }

  class HttpRequest {
    var verb: Option<Method>
    var version: string
    var path: string
    var query: string
    var frag: string
    var body: string
    var keepAlive: bool
    var webSocket: bool
    var tmpHeader: string
    var headers: seq<Header>

    function Value(): Request
      reads this
    {
      Request.Request(verb, version, path, query, frag, body, keepAlive, webSocket, tmpHeader, headers)
    }

    constructor ()
      ensures Value() == FRESH
    {
      verb, version, path, query, frag, body := Some(GET), "1.1", "/", "", "", "";
      keepAlive, webSocket, tmpHeader, headers := false, false, "", [];
    }

    method AddHeader(name: string, value: string)
      requires Sorted(headers)
      modifies this`headers
      ensures headers == Insert(old(headers), name, value) && Sorted(headers)
      ensures forall other ::
        Lookup(headers, other) == (if Key(other) == Key(name) then Some(value) else Lookup(old(headers), other))
    {
      headers := Insert(headers, name, value);
      InsertLookup(old(headers), name, value, name);
      forall other
        ensures Lookup(headers, other) == (if Key(other) == Key(name) then Some(value) else Lookup(old(headers), other))
      {
        InsertLookup(old(headers), name, value, other);
      }
    }

    /** `toString`, line by line. */
    method ToString() returns (s: string)
      ensures s == Print(Value())
    {
      hide MethodName, Key, Decimal, HeaderLine, Lookup, HeaderLines, RequestLine;
      ghost var r := Value();
      RequestLineIs(r);
      s := MethodName(verb) + " " + path + " " + (if query == "" then "" else "?") + query
           + (if frag == "" then "" else "#") + frag + "HTTP/" + version + "\r\n";
      if !webSocket {
        s := s + HeaderLine("connection", if keepAlive then "keep-alive" else "close");
      }
      assert s == RequestLine(r) + ConnectionLine(r);
      ghost var top := s;
      var i := 0;
      while i < |headers|
        invariant i <= |headers| && s + HeaderLines(r, i) == top + HeaderLines(r, 0)
      {
        HeaderLinesFrom(r, i, s);
        if !(!webSocket && Key(headers[i].name) == "connection") {
          s := s + HeaderLine(headers[i].name, headers[i].value);
        }
        i := i + 1;
      }
      HeaderLinesEnd(r);
      assert s == top + HeaderLines(r, 0);
      if body != "" && Lookup(headers, "content-length").None? {
        s := s + HeaderLine("content-length", Decimal(|body|));
      }
      assert s == top + HeaderLines(r, 0) + LengthLine(r);
      s := s + "\r\n" + body;
    }

    /** One callback of the request parser. */
    method Handle(e: Event)
      requires Sorted(headers)
      modifies this
      ensures Value() == Deliver(old(Value()), e) && Sorted(headers)
    {
      match e
      case Data(Url, s) => path := s;
      case Data(Body, s) => body := body + s;
      case Data(HeaderFieldData, s) => tmpHeader := s;
      case Data(HeaderValueData, s) =>
        if Key(tmpHeader) == "connection" { keepAlive := Key(s) != "close"; }
        AddHeader(tmpHeader, s);
      case HeadersComplete(m, major, minor) =>
        verb, version := Some(m), Decimal(major) + "." + Decimal(minor);
      case _ =>
    }
  }
}
