/** `http_parser_parse_url`: the URL automaton driven over a buffer, the host automaton over the server part, and
    the 16-bit offsets and lengths that they fill in. */
module UrlParser {
  import opened Bytes
  import opened ParserTypes
  import opened ParserStep
  import opened Lengths

  datatype Field = Schema | Host | Port | Path | Query | Fragment | Userinfo

  datatype Range = Range(off: nat, len: nat)

  /** `field_data` at the fields whose bit is set in `field_set`; the others are never read. */
  type Fields = map<Field, Range>

  /** `off` and `len` are 16 bits wide. */
  const WIDTH: nat := 0x1_0000

  function Low16(n: nat): nat { n % WIDTH }

  function End(r: Range): nat { r.off + r.len }

  /** `len++` */
  function Longer(r: Range): Range { r.(len := Low16(r.len + 1)) }

  function RangeOf(f: Fields, k: Field): Range { if k in f then f[k] else Range(0, 0) }

  // ----- The first loop: which field a byte belongs to -----

  function FieldOf(s: State): Option<Field> {
    match s
    case ReqSchema => Some(Schema)
    case ReqServerWithAt | ReqServer => Some(Host)
    case ReqPath => Some(Path)
    case ReqQueryString => Some(Query)
    case ReqFragment => Some(Fragment)
    case _ => None
  }

  predicate Delimiter(s: State) {
    s.ReqSchemaSlash? || s.ReqSchemaSlashSlash? || s.ReqServerStart? || s.ReqQueryStringStart? || s.ReqFragmentStart?
  }

  datatype Cursor = Cursor(state: State, last: Option<Field>, fields: Fields, foundAt: bool)

  function Start(connect: bool): Cursor {
    Cursor(if connect then ReqServerStart else ReqSpacesBeforeUrl, None, map[], false)
  }

  /** One pass of the loop at byte `i`. */
  function Advance(c: Cursor, i: nat, ch: char): Option<Cursor> {
    var s := ParseUrlChar(c.state, ch);
    if Delimiter(s) then Some(c.(state := s))
    else match FieldOf(s)
      case None => None
      case Some(uf) =>
        var range := if c.last == Some(uf) then Longer(RangeOf(c.fields, uf))
                     else Range(Low16(i), 1);
        Some(Cursor(s, Some(uf), c.fields[uf := range], c.foundAt || s.ReqServerWithAt?))
  }

  function ScanFrom(c: Cursor, buf: string, i: nat, j: nat): Option<Cursor>
    requires i <= j <= |buf|
    decreases j - i
  {
    if i == j then Some(c)
    else match Advance(c, i, buf[i])
      case None => None
      case Some(d) => ScanFrom(d, buf, i + 1, j)
  }

  /** The "Unexpected state" branch is dead. */
  lemma NeverUnexpected(s: State, ch: char)
    ensures var n := ParseUrlChar(s, ch); n.Dead? || Delimiter(n) || FieldOf(n).Some?
  {
  }

  predicate InBuffer(f: Fields, n: nat) { forall k :: k in f ==> End(f[k]) <= n }

  lemma {:induction false} ScanInBuffer(c: Cursor, buf: string, i: nat, j: nat)
    requires i <= j <= |buf| && InBuffer(c.fields, i) && (c.last.Some? ==> c.last.value in c.fields)
    ensures
      match ScanFrom(c, buf, i, j)
      case None => true
      case Some(d) => InBuffer(d.fields, j)
    decreases j - i
  {
    hide ParseUrlChar, FieldOf, Delimiter;
    if i < j {
      var o := Advance(c, i, buf[i]);
      if o.Some? { ScanInBuffer(o.value, buf, i + 1, j); }
    }
  }

  // ----- The host automaton -----

  datatype HostState =
    | HostDead | InfoStart | Info | HostStart | V6Start | Name | V6 | V6End | ZoneStart | Zone | PortStart | PortDigits

  /** `http_parse_host_char`. */
  function HostChar(s: HostState, ch: char): HostState {
    match s
    case Info | InfoStart => if ch == '@' then HostStart else if IsUserinfoChar(ch) then Info else HostDead
    case HostStart => if ch == '[' then V6Start else if IsHostChar(ch) then Name else HostDead
    case Name => if IsHostChar(ch) then Name else if ch == ':' then PortStart else HostDead
    case V6End => if ch == ':' then PortStart else HostDead
    case V6 => if ch == ']' then V6End else if IsV6Char(ch) then V6 else if ch == '%' then ZoneStart else HostDead
    case V6Start => if IsV6Char(ch) then V6 else HostDead
    case Zone => if ch == ']' then V6End else if IsZoneChar(ch) then Zone else HostDead
    case ZoneStart => if IsZoneChar(ch) then Zone else HostDead
    case PortDigits | PortStart => if IsNum(ch) then PortDigits else HostDead
    case HostDead => HostDead
  }

  predicate IsV6Char(ch: char) { IsHex(ch) || ch == ':' || ch == '.' }

  predicate IsZoneChar(ch: char) { IsAlphaNum(ch) || ch == '%' || ch == '.' || ch == '-' || ch == '_' || ch == '~' }

  /** What one byte of the server part does to the fields. */
  function HostMark(f: Fields, s: HostState, n: HostState, i: nat): Fields {
    match n
    case Name | V6 =>
      var h := RangeOf(f, Host);
      f[Host := Longer(if s == n then h else h.(off := Low16(i)))]
    case ZoneStart | Zone => f[Host := Longer(RangeOf(f, Host))]
    case PortDigits => f[Port := Longer(if s == n then RangeOf(f, Port) else Range(Low16(i), 0))]
    case Info => f[Userinfo := Longer(if s == n then RangeOf(f, Userinfo) else Range(Low16(i), 0))]
    case _ => f
  }

  /** The states in which a server part may end. */
  predicate HostDone(s: HostState) { s.Name? || s.V6End? || s.PortDigits? }

  function HostFrom(f: Fields, s: HostState, buf: string, i: nat, j: nat): Option<Fields>
    requires i <= j <= |buf|
    decreases j - i
  {
    if i == j then (if HostDone(s) then Some(f) else None)
    else
      var n := HostChar(s, buf[i]);
      if n.HostDead? then None else HostFrom(HostMark(f, s, n, i), n, buf, i + 1, j)
  }

  /** `http_parse_host`: the server part is scanned again, and the host field narrowed to the host. */
  function HostFields(f: Fields, buf: string, foundAt: bool): Option<Fields>
    requires Host in f && End(f[Host]) <= |buf|
  {
    var h := f[Host];
    HostFrom(f[Host := h.(len := 0)], if foundAt then InfoStart else HostStart, buf, h.off, End(h))
  }

  /** In which states the host field still has length zero. */
  predicate BeforeHost(s: HostState) { s.InfoStart? || s.Info? || s.HostStart? || s.V6Start? }

  predicate HostSafe(f: Fields, s: HostState, i: nat, n: nat) {
    && InBuffer(f, n) && Host in f && End(f[Host]) <= i && (BeforeHost(s) ==> f[Host].len == 0)
    && (Port in f ==> End(f[Port]) <= i) && (Userinfo in f ==> End(f[Userinfo]) <= i)
  }

  lemma LongerEnds(r: Range)
    ensures End(Longer(r)) <= End(r) + 1
  {
  }

  lemma WrapsDown(i: nat)
    ensures Low16(i) <= i
  {
  }

  lemma MarkSafe(f: Fields, s: HostState, i: nat, n: nat, k: Field, was: Range)
    requires HostSafe(f, s, i, n) && i < n && End(was) <= i && (k == Host || k == Port || k == Userinfo)
    ensures
      var g := f[k := Longer(was)];
      InBuffer(g, n) && Host in g && End(g[Host]) <= i + 1 && (k != Host ==> g[Host] == f[Host])
      && (Port in g ==> End(g[Port]) <= i + 1) && (Userinfo in g ==> End(g[Userinfo]) <= i + 1)
  {
    hide Longer;
    LongerEnds(was);
  }

  lemma FieldMarkSafe(f: Fields, s: HostState, to: HostState, i: nat, n: nat, k: Field)
    requires HostSafe(f, s, i, n) && i < n && ((to == PortDigits && k == Port) || (to == Info && k == Userinfo))
    ensures
      var g := HostMark(f, s, to, i);
      InBuffer(g, n) && Host in g && g[Host] == f[Host]
      && (Port in g ==> End(g[Port]) <= i + 1) && (Userinfo in g ==> End(g[Userinfo]) <= i + 1)
  {
    hide Longer, Low16;
    WrapsDown(i);
    if s == to {
      MarkSafe(f, s, i, n, k, RangeOf(f, k));
    } else {
      MarkSafe(f, s, i, n, k, Range(Low16(i), 0));
    }
  }

  lemma HostMarkSafe(f: Fields, s: HostState, ch: char, i: nat, n: nat)
    requires HostSafe(f, s, i, n) && i < n && !HostChar(s, ch).HostDead?
    ensures HostSafe(HostMark(f, s, HostChar(s, ch), i), HostChar(s, ch), i + 1, n)
  {
    hide HostChar, Longer, Low16, InBuffer;
    HostMoves(s, ch);
    WrapsDown(i);
    match HostChar(s, ch)
    case Name => MarkSafe(f, s, i, n, Host, if s.Name? then f[Host] else f[Host].(off := Low16(i)));
    case V6 => MarkSafe(f, s, i, n, Host, if s.V6? then f[Host] else f[Host].(off := Low16(i)));
    case ZoneStart | Zone => MarkSafe(f, s, i, n, Host, f[Host]);
    case PortDigits => FieldMarkSafe(f, s, PortDigits, i, n, Port);
    case Info => FieldMarkSafe(f, s, Info, i, n, Userinfo);
    case _ =>
  }

  predicate InHost(s: HostState) { s.Name? || s.V6? || s.ZoneStart? || s.Zone? }

  /** The host automaton moves from the user information to the host to the port. */
  lemma HostMoves(s: HostState, ch: char)
    ensures
      match HostChar(s, ch)
      case HostDead => true
      case InfoStart => false
      case Info => s.Info? || s.InfoStart?
      case HostStart => s.Info? || s.InfoStart?
      case V6Start => s.HostStart?
      case Name => s.HostStart? || s.Name?
      case V6 => s.V6Start? || s.V6?
      case ZoneStart => s.V6?
      case Zone => s.ZoneStart? || s.Zone?
      case V6End => s.V6? || s.Zone?
      case PortStart => s.Name? || s.V6End?
      case PortDigits => (s.PortStart? || s.PortDigits?) && IsNum(ch)
  {
    hide IsUserinfoChar, IsHostChar, IsV6Char, IsZoneChar;
  }

  lemma {:induction false} HostInBuffer(f: Fields, s: HostState, buf: string, i: nat, j: nat)
    requires i <= j <= |buf| && HostSafe(f, s, i, |buf|)
    ensures HostFrom(f, s, buf, i, j).Some? ==> InBuffer(HostFrom(f, s, buf, i, j).value, |buf|)
    decreases j - i
  {
    hide HostChar, HostMark;
    if i < j {
      var n := HostChar(s, buf[i]);
      if !n.HostDead? {
        HostMarkSafe(f, s, buf[i], i, |buf|);
        HostInBuffer(HostMark(f, s, n, i), n, buf, i + 1, j);
      }
    }
  }

  // ----- The port -----

  /** A byte as a signed `char`. */
  function Signed(ch: char): int { if ch < '\U{80}' then ch as int else ch as int - 256 }

  /** The port so far; `None` once it has left 16 bits (a negative sum wraps far above them). */
  function PortFrom(v: nat, buf: string, i: nat, j: nat): Option<nat>
    requires i <= j <= |buf|
    decreases j - i
  {
    if i == j then Some(v)
    else
      var w := v * 10 + Signed(buf[i]) - '0' as int;
      if w < 0 || w > 0xFFFF then None else PortFrom(w, buf, i + 1, j)
  }

  datatype Parsed = Rejected | Parsed(fields: Fields, port: nat)

  /** The checks between the two loops and the port. */
  function Assemble(connect: bool, buf: string, f: Fields): Parsed
    requires InBuffer(f, |buf|)
  {
    if connect && f.Keys != {Host, Port} then Rejected
    else if Port !in f then Parsed(f, 0)
    else match PortFrom(0, buf, f[Port].off, End(f[Port]))
      case None => Rejected
      case Some(v) => Parsed(f, v)
  }

  /** `http_parser_parse_url`. */
  function ParseUrl(connect: bool, buf: string): Parsed {
    if buf == "" then Rejected
    else match ScanFrom(Start(connect), buf, 0, |buf|)
      case None => Rejected
      case Some(c) =>
        ScanInBuffer(Start(connect), buf, 0, |buf|);
        if Host !in c.fields then (if Schema in c.fields then Rejected else Assemble(connect, buf, c.fields))
        else
          ScanClean(Start(connect), buf, 0, |buf|);
          HostStartsInBuffer(c, buf);
          match HostFields(c.fields, buf, c.foundAt)
          case None => Rejected
          case Some(f) => Assemble(connect, buf, f)
  }

  /** The first loop sets neither the user information nor the port. */
  lemma {:induction false} ScanClean(c: Cursor, buf: string, i: nat, j: nat)
    requires i <= j <= |buf| && Userinfo !in c.fields && Port !in c.fields
    ensures ScanFrom(c, buf, i, j).Some? ==>
      Userinfo !in ScanFrom(c, buf, i, j).value.fields && Port !in ScanFrom(c, buf, i, j).value.fields
    decreases j - i
  {
    hide ParseUrlChar;
    if i < j {
      var o := Advance(c, i, buf[i]);
      if o.Some? { ScanClean(o.value, buf, i + 1, j); }
    }
  }

  lemma HostStartsInBuffer(c: Cursor, buf: string)
    requires Host in c.fields && InBuffer(c.fields, |buf|) && Userinfo !in c.fields && Port !in c.fields
    ensures HostFields(c.fields, buf, c.foundAt).Some? ==> InBuffer(HostFields(c.fields, buf, c.foundAt).value, |buf|)
  {
    var h := c.fields[Host];
    var f := c.fields[Host := h.(len := 0)];
    var s := if c.foundAt then InfoStart else HostStart;
    HostInBuffer(f, s, buf, h.off, End(h));
  }

  // ----- Field safety: buffers whose positions fit in 16 bits -----

  /** The order in which the fields stand in a URL. */
  function Rank(k: Field): nat {
    match k
    case Schema => 0 case Userinfo => 1 case Host => 2 case Port => 3 case Path => 4 case Query => 5 case Fragment => 6
  }

  /** Every field is non-empty and inside the first `n` bytes, and fields stand apart, in their order. */
  predicate Ordered(f: Fields, n: nat) {
    && (forall k :: k in f ==> 1 <= f[k].len && End(f[k]) <= n)
    && (forall j, k :: j in f && k in f && Rank(j) < Rank(k) ==> End(f[j]) <= f[k].off)
  }

  /** No field below this rank can start in state `s` any more. */
  function Level(s: State): nat {
    match s
    case ReqSpacesBeforeUrl | ReqSchema => 0
    case ReqSchemaSlash | ReqSchemaSlashSlash | ReqServerStart => 1
    case ReqServer | ReqServerWithAt => 2
    case ReqPath => 4
    case ReqQueryStringStart | ReqQueryString => 5
    case _ => 6
  }

  predicate Scanning(c: Cursor, i: nat) {
    && Ordered(c.fields, i) && Userinfo !in c.fields && Port !in c.fields
    && (forall k :: k in c.fields ==>
          Rank(k) <= Level(c.state) && (FieldOf(c.state).None? ==> Rank(k) < Level(c.state)))
    && (c.last.Some? ==> c.last.value in c.fields)
    && (match FieldOf(c.state)
        case Some(k) => c.last == Some(k) && k in c.fields && End(c.fields[k]) == i
        case None => c.state.ReqSpacesBeforeUrl? ==> c.fields == map[])
  }

  lemma LevelsRise(s: State, ch: char)
    requires !ParseUrlChar(s, ch).Dead?
    ensures
      var n := ParseUrlChar(s, ch);
      Level(s) <= Level(n) && (FieldOf(n).None? && FieldOf(s).Some? ==> Level(s) < Level(n))
      && (FieldOf(n).Some? ==>
            Level(n) == Rank(FieldOf(n).value)
            && (FieldOf(s) == FieldOf(n) || Level(s) < Level(n) || (FieldOf(s).None? && Level(s) <= Level(n))))
      && !n.ReqSpacesBeforeUrl? && FieldOf(n) != Some(Userinfo) && FieldOf(n) != Some(Port)
  {
  }

  /** A byte that continues the field read last. */
  lemma ExtendKeeps(f: Fields, k: Field, i: nat)
    requires Ordered(f, i) && k in f && End(f[k]) == i && forall j :: j in f ==> Rank(j) <= Rank(k)
    ensures Ordered(f[k := f[k].(len := f[k].len + 1)], i + 1)
  {
  }

  /** A byte that starts a field above all those read. */
  lemma OpenKeeps(f: Fields, k: Field, i: nat)
    requires Ordered(f, i) && forall j :: j in f ==> Rank(j) < Rank(k)
    ensures Ordered(f[k := Range(i, 1)], i + 1)
  {
  }

  lemma DelimiterKeeps(f: Fields, i: nat)
    requires Ordered(f, i)
    ensures Ordered(f, i + 1)
  {
  }

  lemma RankIsInjective(j: Field, k: Field)
    ensures Rank(j) == Rank(k) ==> j == k
  {
  }

  lemma ScanKeeps(c: Cursor, i: nat, ch: char)
    requires Scanning(c, i) && i + 1 < WIDTH && Advance(c, i, ch).Some?
    ensures Scanning(Advance(c, i, ch).value, i + 1)
  {
    hide ParseUrlChar, Level, FieldOf, Delimiter, Ordered, Rank;
    var s := ParseUrlChar(c.state, ch);
    FieldOrDelimiter(s);
    LevelsRise(c.state, ch);
    DelimiterKeeps(c.fields, i);
    if FieldOf(s).Some? {
      var k := FieldOf(s).value;
      if c.last == Some(k) {
        LengthFits(c.fields, k, i);
        ExtendKeeps(c.fields, k, i);
      } else {
        forall j | j in c.fields ensures Rank(j) < Rank(k) { RankIsInjective(j, k); }
        OpenKeeps(c.fields, k, i);
      }
    }
  }

  lemma LengthFits(f: Fields, k: Field, i: nat)
    requires Ordered(f, i) && k in f && i + 1 < WIDTH
    ensures Low16(f[k].len + 1) == f[k].len + 1 && Low16(i) == i
  {
  }

  lemma FieldOrDelimiter(s: State)
    ensures Delimiter(s) ==> FieldOf(s).None? && !s.Dead?
    ensures s.Dead? ==> FieldOf(s).None? && !Delimiter(s)
  {
  }

  /** The second scan, between the start `lo` of the server part and byte `i`. */
  predicate Narrowing(f: Fields, base: Fields, s: HostState, buf: string, lo: nat, i: nat)
    requires i <= |buf|
  {
    && (forall k :: k != Host && k != Userinfo && k != Port ==> (k in f <==> k in base) && (k in f ==> f[k] == base[k]))
    && Host in f && lo <= f[Host].off && End(f[Host]) <= i
    && (if BeforeHost(s) then f[Host].len == 0 else 1 <= f[Host].len) && (InHost(s) ==> End(f[Host]) == i)
    && (Userinfo in f ==>
          lo <= f[Userinfo].off && 1 <= f[Userinfo].len && End(f[Userinfo]) <= i && !s.InfoStart?
          && (s.Info? ==> End(f[Userinfo]) == i) && (!BeforeHost(s) ==> End(f[Userinfo]) <= f[Host].off))
    && (s.Info? ==> Userinfo in f)
    && (Port in f <==> s.PortDigits?)
    && (Port in f ==>
          1 <= f[Port].len && End(f[Port]) == i && End(f[Host]) <= f[Port].off && AllDigits(buf[f[Port].off..i]))
  }

  lemma DigitsGrow(buf: string, a: nat, i: nat)
    requires a <= i < |buf| && IsNum(buf[i]) && AllDigits(buf[a..i])
    ensures AllDigits(buf[a..i + 1])
  {
    assert buf[a..i + 1] == buf[a..i] + [buf[i]];
  }

  lemma Fits(n: nat)
    ensures n < WIDTH ==> Low16(n) == n
  {
  }

  lemma NarrowingKeeps(f: Fields, base: Fields, s: HostState, buf: string, lo: nat, i: nat)
    requires i < |buf| < WIDTH && Narrowing(f, base, s, buf, lo, i) && !HostChar(s, buf[i]).HostDead?
    requires lo <= i
    ensures var n := HostChar(s, buf[i]); Narrowing(HostMark(f, s, n, i), base, n, buf, lo, i + 1)
  {
    hide HostChar, IsNum, AllDigits, Low16;
    HostMoves(s, buf[i]);
    var n := HostChar(s, buf[i]);
    Fits(i);
    Fits(f[Host].len + 1);
    if s.PortDigits? { Fits(f[Port].len + 1); }
    if s.Info? { Fits(f[Userinfo].len + 1); }
    Fits(1);
    if n.PortDigits? {
      assert buf[i..i] == "" && AllDigits(buf[i..i]) by { NoDigits(); }
      DigitsGrow(buf, if s.PortDigits? then f[Port].off else i, i);
    }
  }

  lemma NoDigits()
    ensures AllDigits("")
  {
  }

  predicate Narrowed(f: Fields, base: Fields, buf: string, lo: nat, hi: nat) {
    && (forall k :: k != Host && k != Userinfo && k != Port ==> (k in f <==> k in base) && (k in f ==> f[k] == base[k]))
    && Host in f && lo <= f[Host].off && 1 <= f[Host].len && End(f[Host]) <= hi
    && (Userinfo in f ==> lo <= f[Userinfo].off && 1 <= f[Userinfo].len && End(f[Userinfo]) <= f[Host].off)
    && (Port in f ==>
          1 <= f[Port].len && End(f[Host]) <= f[Port].off && End(f[Port]) == hi <= |buf|
            && AllDigits(buf[f[Port].off..hi]))
  }

  lemma {:induction false} HostNarrows(f: Fields, base: Fields, s: HostState, buf: string, lo: nat, i: nat, hi: nat)
    requires lo <= i <= hi <= |buf| < WIDTH && Narrowing(f, base, s, buf, lo, i)
    ensures HostFrom(f, s, buf, i, hi).Some? ==> Narrowed(HostFrom(f, s, buf, i, hi).value, base, buf, lo, hi)
    decreases hi - i
  {
    hide HostChar, HostMark, AllDigits;
    if i < hi {
      var n := HostChar(s, buf[i]);
      if !n.HostDead? {
        NarrowingKeeps(f, base, s, buf, lo, i);
        HostNarrows(HostMark(f, s, n, i), base, n, buf, lo, i + 1, hi);
      }
    }
  }

  /** The narrowed fields keep the order. */
  lemma NarrowedOrdered(f: Fields, base: Fields, buf: string)
    requires Ordered(base, |buf|) && Host in base && Userinfo !in base && Port !in base
    requires Narrowed(f, base, buf, base[Host].off, End(base[Host]))
    ensures Ordered(f, |buf|)
  {
    hide AllDigits;
  }

  lemma {:induction false} DecGrows(s: string, n: nat)
    requires n <= |s| && AllDigits(s)
    ensures DecValue(s[..n]) <= DecValue(s)
    decreases |s|
  {
    hide IsNum, Digit;
    if n == |s| {
      assert s[..n] == s;
    } else {
      var init := s[..|s| - 1];
      assert init[..n] == s[..n];
      DecGrows(init, n);
    }
  }

  lemma DigitsInside(buf: string, a: nat, i: nat, b: nat)
    requires a <= i <= b <= |buf| && AllDigits(buf[a..b])
    ensures AllDigits(buf[a..i]) && (i < b ==> AllDigits(buf[a..i + 1]) && IsNum(buf[i]))
    ensures i < b ==> DecValue(buf[a..i + 1]) == DecValue(buf[a..i]) * 10 + Signed(buf[i]) - '0' as int
  {
    assert forall k :: 0 <= k < i - a ==> buf[a..i][k] == buf[a..b][k];
    if i < b {
      assert forall k :: 0 <= k < i + 1 - a ==> buf[a..i + 1][k] == buf[a..b][k];
      assert buf[a..b][i - a] == buf[i];
      var more := buf[a..i + 1];
      assert more[..|more| - 1] == buf[a..i] && more[|more| - 1] == buf[i];
    }
  }

  /** The port loop yields the decimal value of its digits, or rejects it above 16 bits. */
  lemma {:induction false} PortValue(buf: string, a: nat, i: nat, b: nat)
    requires a <= i <= b <= |buf| && AllDigits(buf[a..b])
    ensures AllDigits(buf[a..i])
    ensures DecValue(buf[a..i]) <= 0xFFFF ==>
      PortFrom(DecValue(buf[a..i]), buf, i, b)
      == if DecValue(buf[a..b]) <= 0xFFFF then Some(DecValue(buf[a..b])) else None
    decreases b - i
  {
    hide AllDigits, DecValue, Signed, IsNum;
    DigitsInside(buf, a, i, b);
    if i < b {
      assert buf[a..b][..i + 1 - a] == buf[a..i + 1];
      DecGrows(buf[a..b], i + 1 - a);
      PortValue(buf, a, i + 1, b);
    }
  }

  lemma {:induction false} ScanOrdered(c: Cursor, buf: string, i: nat, j: nat)
    requires i <= j <= |buf| < WIDTH && Scanning(c, i)
    ensures ScanFrom(c, buf, i, j).Some? ==> Scanning(ScanFrom(c, buf, i, j).value, j)
    decreases j - i
  {
    hide Advance, Scanning;
    if i < j {
      var o := Advance(c, i, buf[i]);
      if o.Some? {
        ScanKeeps(c, i, buf[i]);
        ScanOrdered(o.value, buf, i + 1, j);
      }
    }
  }

  /** What a caller may rely on after an accepted URL. */
  predicate SafeUrl(connect: bool, buf: string, f: Fields, port: nat) {
    && Ordered(f, |buf|)
    && (Schema in f ==> Host in f)
    && (Port in f ==>
          AllDigits(buf[f[Port].off..End(f[Port])]) && port == DecValue(buf[f[Port].off..End(f[Port])])
            && port <= 0xFFFF)
    && (Port !in f ==> port == 0)
    && (connect ==> f.Keys == {Host, Port})
  }

  lemma AssembleSafe(connect: bool, buf: string, f: Fields)
    requires Ordered(f, |buf|) && (Schema in f ==> Host in f)
    requires Port in f ==> AllDigits(buf[f[Port].off..End(f[Port])])
    ensures
      match Assemble(connect, buf, f)
      case Rejected => true
      case Parsed(g, port) => SafeUrl(connect, buf, g, port)
  {
    hide DecValue, AllDigits, PortFrom;
    if Port in f {
      var a, b := f[Port].off, End(f[Port]);
      assert buf[a..a] == "" && DecValue("") == 0 by { NoDigits(); EmptyDecimal(); }
      PortValue(buf, a, a, b);
    }
  }

  lemma EmptyDecimal()
    ensures AllDigits("") && DecValue("") == 0
  {
  }

  lemma Started(connect: bool)
    ensures Scanning(Start(connect), 0)
  {
  }

  /** An accepted URL of at most 65535 bytes: every field is non-empty and inside the buffer, the fields stand
      apart in their order, a schema comes with a host, and the port is the number its digits denote. */
  lemma FieldSafety(connect: bool, buf: string)
    requires |buf| < WIDTH
    ensures
      match ParseUrl(connect, buf)
      case Rejected => true
      case Parsed(f, port) => SafeUrl(connect, buf, f, port)
  {
    hide Advance, HostFrom, Assemble, SafeUrl, Narrowed, Ordered, AllDigits;
    Started(connect);
    ScanOrdered(Start(connect), buf, 0, |buf|);
    if buf != "" && ScanFrom(Start(connect), buf, 0, |buf|).Some? {
      var c := ScanFrom(Start(connect), buf, 0, |buf|).value;
      var base := c.fields;
      if Host in base {
        HostBegins(c, buf);
        var o := HostFields(base, buf, c.foundAt);
        if o.Some? {
          NarrowedOrdered(o.value, base, buf);
          NarrowedDigits(o.value, base, buf);
          AssembleSafe(connect, buf, o.value);
        }
      } else if Schema !in base {
        NoPort(c, |buf|);
        AssembleSafe(connect, buf, base);
      }
    }
  }

  lemma NoPort(c: Cursor, n: nat)
    requires Scanning(c, n)
    ensures Port !in c.fields && Userinfo !in c.fields && Ordered(c.fields, n)
  {
    hide FieldOf, Level, Ordered;
  }

  lemma NarrowedDigits(f: Fields, base: Fields, buf: string)
    requires Host in base && Narrowed(f, base, buf, base[Host].off, End(base[Host]))
    ensures Host in f
    ensures Port in f ==> End(f[Port]) <= |buf| && AllDigits(buf[f[Port].off..End(f[Port])])
  {
    hide AllDigits;
  }

  lemma HostBegins(c: Cursor, buf: string)
    requires |buf| < WIDTH && Scanning(c, |buf|) && Host in c.fields
    ensures End(c.fields[Host]) <= |buf|
    ensures
      var o := HostFields(c.fields, buf, c.foundAt);
      o.Some? ==> Narrowed(o.value, c.fields, buf, c.fields[Host].off, End(c.fields[Host]))
  {
    hide HostFrom, Narrowed, AllDigits, FieldOf, Level;
    var h := c.fields[Host];
    HostNarrows(c.fields[Host := h.(len := 0)], c.fields, if c.foundAt then InfoStart else HostStart, buf, h.off,
                h.off, End(h));
  }

  // ----- The functions as they are written -----

  lemma NextIsKnown(s: State, ch: char)
    ensures
      var n := ParseUrlChar(s, ch);
      n.Dead? || n.ReqSchemaSlash? || n.ReqSchemaSlashSlash? || n.ReqServerStart? || n.ReqQueryStringStart?
      || n.ReqFragmentStart? || n.ReqSchema? || n.ReqServerWithAt? || n.ReqServer? || n.ReqPath? || n.ReqQueryString?
      || n.ReqFragment?
  {
  }

  /** `struct http_parser_url` and the functions that fill it in. */
  class UrlFields {
    var fields: Fields
    var port: nat

    constructor ()
      ensures fields == map[] && port == 0
    {
      fields, port := map[], 0;
    }

    /** `http_parse_host` */
    method ParseHost(buf: string, foundAt: bool) returns (ok: bool)
      requires Host in fields && End(fields[Host]) <= |buf|
      modifies this`fields
      ensures
        match HostFields(old(fields), buf, foundAt)
        case None => !ok
        case Some(f) => ok && fields == f
    {
      hide HostChar, HostMark;
      ok := false;
      var h := fields[Host];
      fields := fields[Host := h.(len := 0)];
      var s := if foundAt then InfoStart else HostStart;
      ghost var f0, s0 := fields, s;
      var p := h.off;
      while p < End(h)
        invariant h.off <= p <= End(h)
        invariant HostFrom(f0, s0, buf, h.off, End(h)) == HostFrom(fields, s, buf, p, End(h))
      {
        var n := HostChar(s, buf[p]);
        if n.HostDead? { return; }
        fields := HostMark(fields, s, n, p);
        s := n;
        p := p + 1;
      }
      ok := HostDone(s);
    }

    /** The port loop; it stops as soon as the number leaves 16 bits. */
    method ParsePort(buf: string) returns (ok: bool)
      requires Port in fields && End(fields[Port]) <= |buf|
      modifies this`port
      ensures
        match PortFrom(0, buf, fields[Port].off, End(fields[Port]))
        case None => !ok
        case Some(v) => ok && port == v
    {
      var p, end := fields[Port].off, End(fields[Port]);
      var v: nat := 0;
      while p < end
        invariant fields[Port].off <= p <= end
        invariant PortFrom(0, buf, fields[Port].off, end) == PortFrom(v, buf, p, end)
      {
        var w := v * 10 + Signed(buf[p]) - '0' as int;
        if w < 0 || w > 0xFFFF { return false; }
        v := w;
        p := p + 1;
      }
      port, ok := v, true;
    }

    /** `http_parser_parse_url` */
    method Parse(buf: string, connect: bool) returns (ok: bool)
      modifies this
      ensures
        match ParseUrl(connect, buf)
        case Rejected => !ok
        case Parsed(f, v) => ok && fields == f && port == v
      ensures ok && |buf| < WIDTH ==> SafeUrl(connect, buf, fields, port)
    {
      hide SafeUrl, HostFields, PortFrom;
      ok := false;
      if buf == "" { return; }
      ghost var start := Start(connect);
      var foundAt := false;
      ok, foundAt := ScanFields(buf, connect);
      if !ok { return; }
      ok := false;
      ghost var c := ScanFrom(start, buf, 0, |buf|).value;
      ScanInBuffer(start, buf, 0, |buf|);
      if Schema in fields && Host !in fields { return; }
      if Host in fields {
        ScanClean(start, buf, 0, |buf|);
        HostStartsInBuffer(c, buf);
        var good := ParseHost(buf, foundAt);
        if !good { return; }
      }
      if |buf| < WIDTH { FieldSafety(connect, buf); }
      if connect && fields.Keys != {Host, Port} { return; }
      if Port in fields {
        assert End(fields[Port]) <= |buf|;
        ok := ParsePort(buf);
      } else {
        ok := true;
      }
    }

    /** The first loop of `http_parser_parse_url`. */
    method ScanFields(buf: string, connect: bool) returns (ok: bool, foundAt: bool)
      modifies this
      ensures port == 0
      ensures
        match ScanFrom(Start(connect), buf, 0, |buf|)
        case None => !ok
        case Some(c) => ok && fields == c.fields && foundAt == c.foundAt
    {
      hide ParseUrlChar, ScanFrom;
      ok, foundAt := false, false;
      fields, port := map[], 0;
      var s := if connect then ReqServerStart else ReqSpacesBeforeUrl;
      var last: Option<Field> := None;
      var p := 0;
      while p < |buf|
        invariant p <= |buf| && port == 0 && !ok
        invariant ScanFrom(Start(connect), buf, 0, |buf|) == ScanFrom(Cursor(s, last, fields, foundAt), buf, p, |buf|)
      {
        ScanStep(Cursor(s, last, fields, foundAt), buf, p);
        NextIsKnown(s, buf[p]);
        s := ParseUrlChar(s, buf[p]);
        var uf: Field;
        match s {
          case Dead => return;
          case ReqSchemaSlash | ReqSchemaSlashSlash | ReqServerStart | ReqQueryStringStart | ReqFragmentStart =>
            p := p + 1;
            continue;
          case ReqSchema => uf := Schema;
          case ReqServerWithAt =>
            foundAt := true;
            uf := Host;
          case ReqServer => uf := Host;
          case ReqPath => uf := Path;
          case ReqQueryString => uf := Query;
          case ReqFragment => uf := Fragment;
          case _ => assert false;
        }
        if last == Some(uf) {
          fields := fields[uf := Longer(RangeOf(fields, uf))];
        } else {
          fields := fields[uf := Range(Low16(p), 1)];
          last := Some(uf);
        }
        p := p + 1;
      }
      ScanEnd(Cursor(s, last, fields, foundAt), buf);
      ok := true;
    }
  }

  lemma ScanStep(c: Cursor, buf: string, i: nat)
    requires i < |buf|
    ensures ScanFrom(c, buf, i, |buf|) ==
      match Advance(c, i, buf[i])
      case None => None
      case Some(d) => ScanFrom(d, buf, i + 1, |buf|)
  {
    hide Advance;
  }

  lemma ScanEnd(c: Cursor, buf: string)
    ensures ScanFrom(c, buf, |buf|, |buf|) == Some(c)
  {
  }
}
