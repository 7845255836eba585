/** What the header flags mean: a flag is set only if some header of the message has the element it stands for,
    however the input is cut into buffers and lines are folded. */
module HeaderTokens {
  import opened Bytes
  import opened ParserTypes
  import opened ParserStep
  import opened ParserMarks
  import opened ParserRun
  import opened ParserBatches
  import opened ParserProgress
  import opened HeaderNames

  // ----- Elements of a comma-separated value -----

  /** An element may start at `k`: at the start of the value, or after a comma and blanks. */
  predicate ElementStart(v: string, k: nat)
    requires k <= |v|
  {
    k == 0 || exists c :: 0 <= c < k && v[c] == ',' && forall j :: c < j < k ==> IsBlank(v[j])
  }

  /** `word`, in any case, at `k`, then spaces up to `e`. */
  predicate Element(v: string, word: string, k: nat, e: nat) {
    && k + |word| <= e <= |v| && ElementStart(v, k) && FoldAll(v[k..k + |word|]) == word
    && forall j :: k + |word| <= j < e ==> v[j] == ' '
  }

  /** The last element is `word`. */
  predicate EndsIn(v: string, word: string) { exists k :: 0 <= k <= |v| && Element(v, word, k, |v|) }

  /** Some element is `word` and is closed by a comma. */
  predicate HasClosed(v: string, word: string) {
    exists k, e :: 0 <= k <= e < |v| && v[e] == ',' && Element(v, word, k, e)
  }

  predicate HasElement(v: string, word: string) { EndsIn(v, word) || HasClosed(v, word) }

  lemma StartStays(v: string, s: string, k: nat)
    requires k <= |v| && ElementStart(v, k)
    ensures ElementStart(v + s, k)
  {
    if k > 0 {
      var c :| 0 <= c < k && v[c] == ',' && forall j :: c < j < k ==> IsBlank(v[j]);
      assert (v + s)[c] == ',';
    }
  }

  lemma ElementStays(v: string, s: string, word: string, k: nat, e: nat)
    requires Element(v, word, k, e)
    ensures Element(v + s, word, k, e)
  {
    hide ElementStart;
    StartStays(v, s, k);
    assert (v + s)[k..k + |word|] == v[k..k + |word|];
  }

  lemma ClosedStays(v: string, s: string, word: string)
    requires HasClosed(v, word)
    ensures HasClosed(v + s, word)
  {
    hide Element;
    var k, e :| 0 <= k <= e < |v| && v[e] == ',' && Element(v, word, k, e);
    ElementStays(v, s, word, k, e);
    assert (v + s)[e] == ',';
  }

  // ----- What the value states say -----

  predicate IsTE(n: string) { FoldAll(n) == "transfer-encoding" }

  predicate IsConn(n: string) { FoldAll(n) == "connection" || FoldAll(n) == "proxy-connection" }

  /** The value ends with the first letters of `word`, at the start of an element. */
  predicate Matched(v: string, word: string, index: nat) {
    && index + 1 < |word| && index + 1 <= |v| && ElementStart(v, |v| - index - 1)
    && FoldAll(v[|v| - index - 1..]) == word[..index + 1]
  }

  predicate ValueSays(hs: HeaderState, index: nat, n: string, v: string) {
    match hs
    case General | ContentLengthNum | ContentLengthWs => true
    case TeTokenStart => IsTE(n) && index == 0 && ElementStart(v, |v|)
    case TeMatchingChunked => IsTE(n) && Matched(v, "chunked", index)
    case TeToken => IsTE(n)
    case TeChunked => IsTE(n) && EndsIn(v, "chunked")
    case ConnTokenStart => IsConn(n) && index == 0 && ElementStart(v, |v|)
    case ConnMatchingKeepAlive => IsConn(n) && Matched(v, "keep-alive", index)
    case ConnMatchingClose => IsConn(n) && Matched(v, "close", index)
    case ConnMatchingUpgrade => IsConn(n) && Matched(v, "upgrade", index)
    case ConnToken => IsConn(n)
    case ConnKeepAlive => IsConn(n) && EndsIn(v, "keep-alive")
    case ConnClose => IsConn(n) && EndsIn(v, "close")
    case ConnUpgrade => IsConn(n) && EndsIn(v, "upgrade")
    case _ => false
  }

  predicate WordChar(c: char) { 'a' <= c <= 'z' || c == '-' }

  /** A byte whose 0x20 bit makes it a letter of a word is that letter in one of the two cases. */
  lemma LowerFolds(ch: char, c: char)
    requires WordChar(c) && Lower(ch) == c && ch != CR
    ensures Fold(ch) == c
  {
  }

  lemma AllWordChars(hs: HeaderState, i: nat)
    requires hs.TeMatchingChunked? || hs.ConnMatchingKeepAlive? || hs.ConnMatchingClose? || hs.ConnMatchingUpgrade?
    requires i < |Wanted(hs)|
    ensures WordChar(Wanted(hs)[i])
  {
  }

  lemma MatchedMore(v: string, word: string, index: nat, ch: char)
    requires Matched(v, word, index) && Fold(ch) == word[index + 1]
    ensures if index + 2 == |word| then EndsIn(v + [ch], word) else Matched(v + [ch], word, index + 1)
  {
    hide ElementStart, Fold;
    var k := |v| - index - 1;
    StartStays(v, [ch], k);
    assert (v + [ch])[k..] == v[k..] + [ch];
    FoldSnoc(v[k..], ch);
    assert word[..index + 1] + [word[index + 1]] == word[..index + 2];
    if index + 2 == |word| {
      assert (v + [ch])[k..k + |word|] == (v + [ch])[k..];
      assert word[..index + 2] == word;
      assert Element(v + [ch], word, k, |v + [ch]|);
    }
  }

  lemma MatchedFirst(v: string, ch: char, word: string)
    requires ElementStart(v, |v|) && 2 <= |word| && Fold(ch) == word[0]
    ensures Matched(v + [ch], word, 0)
  {
    hide ElementStart;
    StartStays(v, [ch], |v|);
    assert (v + [ch])[|v|..] == [ch];
    assert word[..1] == [word[0]];
    FoldSnoc("", ch);
    assert "" + [ch] == [ch] && FoldAll("") + [Fold(ch)] == [Fold(ch)];
  }

  lemma SpaceStays(v: string, word: string)
    requires EndsIn(v, word)
    ensures EndsIn(v + " ", word)
  {
    hide ElementStart;
    var k :| 0 <= k <= |v| && Element(v, word, k, |v|);
    ElementStays(v, " ", word, k, |v|);
    assert Element(v + " ", word, k, |v + " "|);
  }

  lemma CommaCloses(v: string, word: string)
    requires EndsIn(v, word)
    ensures HasClosed(v + ",", word)
  {
    hide ElementStart, FoldAll;
    var k :| 0 <= k <= |v| && Element(v, word, k, |v|);
    ElementStays(v, ",", word, k, |v|);
    assert (v + ",")[|v|] == ',';
  }

  lemma CommaStarts(v: string)
    ensures ElementStart(v + ",", |v| + 1)
  {
    assert (v + ",")[|v|] == ',';
  }

  lemma BlankStarts(v: string, ch: char)
    requires ElementStart(v, |v|) && v != "" && IsBlank(ch)
    ensures ElementStart(v + [ch], |v| + 1)
  {
    var c :| 0 <= c < |v| && v[c] == ',' && forall j :: c < j < |v| ==> IsBlank(v[j]);
    assert (v + [ch])[c] == ',';
  }

  predicate Matcher(hs: HeaderState) {
    hs.TeMatchingChunked? || hs.ConnMatchingKeepAlive? || hs.ConnMatchingClose? || hs.ConnMatchingUpgrade?
  }

  /** The state that a whole word leads to, and the state after a letter that does not fit. */
  function Hit(hs: HeaderState): HeaderState
    requires Matcher(hs)
  {
    match hs
    case TeMatchingChunked => TeChunked
    case ConnMatchingKeepAlive => ConnKeepAlive
    case ConnMatchingClose => ConnClose
    case ConnMatchingUpgrade => ConnUpgrade
  }

  function Miss(hs: HeaderState): HeaderState { if hs.TeMatchingChunked? then TeToken else ConnToken }

  lemma MatcherMeans(hs: HeaderState, index: nat, n: string, v: string)
    requires Matcher(hs)
    ensures ValueSays(hs, index, n, v) <==>
      (if hs.TeMatchingChunked? then IsTE(n) else IsConn(n)) && Matched(v, Wanted(hs), index)
    ensures ValueSays(Miss(hs), index, n, v) <==> if hs.TeMatchingChunked? then IsTE(n) else IsConn(n)
    ensures ValueSays(Hit(hs), index, n, v)
      <==> (if hs.TeMatchingChunked? then IsTE(n) else IsConn(n)) && EndsIn(v, Wanted(hs))
    ensures |Wanted(hs)| <= 10
  {
    hide Matched, EndsIn, IsTE, IsConn;
  }

  lemma MatcherScans(hs: HeaderState, index: nat, ch: char)
    requires Matcher(hs) && index + 1 < |Wanted(hs)| <= 10
    ensures ValueScan(hs, index, ch) ==
      if Lower(ch) != Wanted(hs)[index + 1] then Scan(Miss(hs), index + 1)
      else if index + 2 == |Wanted(hs)| then Scan(Hit(hs), index + 1)
      else Scan(hs, index + 1)
  {
    hide Lower, Wanted;
  }

  lemma MatchedBounds(v: string, word: string, index: nat)
    requires Matched(v, word, index)
    ensures index + 1 < |word|
  {
  }

  /** One letter of a matcher. */
  lemma MatcherSays(hs: HeaderState, index: nat, n: string, v: string, ch: char)
    requires ValueSays(hs, index, n, v) && ch != CR && Matcher(hs)
    ensures
      var s := ValueScan(hs, index, ch);
      ValueSays(s.headerState, s.index, n, v + [ch])
  {
    hide ValueSays, ValueScan, Matched, EndsIn, IsTE, IsConn, Lower, Fold, Wanted, Hit, Miss;
    var word := Wanted(hs);
    MatcherMeans(hs, index, n, v);
    MatchedBounds(v, word, index);
    MatcherScans(hs, index, ch);
    MatcherMeans(hs, index + 1, n, v + [ch]);
    if Lower(ch) == word[index + 1] {
      AllWordChars(hs, index + 1);
      LowerFolds(ch, word[index + 1]);
      MatchedMore(v, word, index, ch);
    }
  }

  lemma TokenStartSays(hs: HeaderState, n: string, v: string, ch: char)
    requires ValueSays(hs, 0, n, v) && v != "" && ValueChar(ch) && (hs.TeTokenStart? || hs.ConnTokenStart?)
    ensures ValueSays(TokenStart(hs, Lower(ch)), 0, n, v + [ch])
  {
    hide ElementStart, IsTE, IsConn, Fold, IsToken;
    var c := Lower(ch);
    if c == 'c' || c == 'k' || c == 'u' {
      LowerFolds(ch, c);
      if c == 'k' { MatchedFirst(v, ch, "keep-alive"); }
      if c == 'u' { MatchedFirst(v, ch, "upgrade"); }
      if c == 'c' { MatchedFirst(v, ch, "close"); MatchedFirst(v, ch, "chunked"); }
    } else if c == ' ' {
      BlankStarts(v, ch);
    }
  }

  /** One byte of a value. */
  lemma ValueSaysMore(hs: HeaderState, index: nat, n: string, v: string, ch: char)
    requires ValueSays(hs, index, n, v) && v != "" && ValueChar(ch) && !InContentLength(hs)
    ensures
      var s := ValueScan(hs, index, ch);
      ValueSays(s.headerState, s.index, n, v + [ch])
  {
    hide ElementStart, EndsIn, IsTE, IsConn, Lower, Fold, FoldAll, MatchLetter, TokenStart, IsHeaderChar, Matched;
    if hs.TeMatchingChunked? || hs.ConnMatchingKeepAlive? || hs.ConnMatchingClose? || hs.ConnMatchingUpgrade? {
      MatcherSays(hs, index, n, v, ch);
    } else if hs.TeTokenStart? || hs.ConnTokenStart? {
      TokenStartSays(hs, n, v, ch);
    } else {
      if ch == ',' { CommaStarts(v); assert [ch] == ","; }
      if ch == ' ' { EndsInSpace(v); assert [ch] == " "; }
    }
  }

  lemma EndsInSpace(v: string)
    ensures EndsIn(v, "chunked") ==> EndsIn(v + " ", "chunked")
    ensures EndsIn(v, "keep-alive") ==> EndsIn(v + " ", "keep-alive")
    ensures EndsIn(v, "close") ==> EndsIn(v + " ", "close")
    ensures EndsIn(v, "upgrade") ==> EndsIn(v + " ", "upgrade")
  {
    hide EndsIn;
    if EndsIn(v, "chunked") { SpaceStays(v, "chunked"); }
    if EndsIn(v, "keep-alive") { SpaceStays(v, "keep-alive"); }
    if EndsIn(v, "close") { SpaceStays(v, "close"); }
    if EndsIn(v, "upgrade") { SpaceStays(v, "upgrade"); }
  }

  lemma FirstMatched(ch: char, word: string)
    requires 2 <= |word| && Fold(ch) == word[0]
    ensures Matched([ch], word, 0)
  {
    hide Fold;
    MatchedFirst("", ch, word);
    assert "" + [ch] == [ch];
  }

  /** The first byte of a value, right after the name. */
  lemma FirstValueSays(hs: HeaderState, index: nat, n: string, ch: char)
    requires FieldSays(hs, index, n) && !hs.ContentLength? && ch != CR
    ensures ValueSays(FirstValueState(hs, Lower(ch)), 0, n, [ch])
  {
    hide FoldAll, Lower, Fold, ElementStart, EndsIn, Matched, Wanted;
    var c := Lower(ch);
    if c == 'c' || c == 'k' || c == 'u' {
      LowerFolds(ch, c);
      if c == 'k' { FirstMatched(ch, "keep-alive"); }
      if c == 'u' { FirstMatched(ch, "upgrade"); }
      if c == 'c' { FirstMatched(ch, "close"); FirstMatched(ch, "chunked"); }
    }
  }

  /** The blank that folds a line. */
  lemma FoldedSays(hs: HeaderState, index: nat, n: string, v: string, ch: char)
    requires ValueSays(hs, index, n, v) && v != "" && IsBlank(ch)
    ensures ValueSays(FirstValueState(hs, Lower(ch)), 0, n, v + [ch])
  {
    hide ElementStart, EndsIn, IsTE, IsConn, Matched, Lower;
    if hs.TeTokenStart? || hs.ConnTokenStart? { BlankStarts(v, ch); }
  }

  // ----- What the flags say about the callbacks -----

  /** A header of the current message: its name and its value, next to each other in the merged callbacks. */
  predicate HeaderAt(m: seq<Event>, i: nat) {
    && i + 1 < |m| && m[i].Data? && m[i].kind == HeaderFieldData && m[i + 1].Data? && m[i + 1].kind == HeaderValueData
    && forall j :: i <= j < |m| ==> !m[j].MessageBegin?
  }

  predicate SaysChunked(m: seq<Event>, sealed: nat) {
    exists i :: 0 <= i < |m| && HeaderAt(m, i) && i + 1 < sealed && IsTE(m[i].bytes)
      && EndsIn(m[i + 1].bytes, "chunked")
  }

  /** In a value that is still being read only an element closed by a comma counts. */
  predicate SaysToken(m: seq<Event>, sealed: nat, word: string) {
    exists i :: 0 <= i < |m| && HeaderAt(m, i) && IsConn(m[i].bytes)
      && (if i + 1 < sealed then HasElement(m[i + 1].bytes, word) else HasClosed(m[i + 1].bytes, word))
  }

  predicate FlagsSay(f: Flags, m: seq<Event>, sealed: nat) {
    && (f.chunked ==> SaysChunked(m, sealed)) && (f.keepAlive ==> SaysToken(m, sealed, "keep-alive"))
    && (f.close ==> SaysToken(m, sealed, "close")) && (f.connUpgrade ==> SaysToken(m, sealed, "upgrade"))
  }

  predicate SameWords(f: Flags, g: Flags) {
    f.chunked == g.chunked && f.keepAlive == g.keepAlive && f.close == g.close && f.connUpgrade == g.connUpgrade
  }

  /** More callbacks, none of which starts a message. */
  lemma ChunkedAppend(m: seq<Event>, rest: seq<Event>, sealed: nat)
    requires SaysChunked(m, sealed) && sealed <= |m| && forall j :: 0 <= j < |rest| ==> !rest[j].MessageBegin?
    ensures SaysChunked(m + rest, |m + rest|)
  {
    hide IsTE, EndsIn;
    var i :| 0 <= i < |m| && HeaderAt(m, i) && i + 1 < sealed && IsTE(m[i].bytes) && EndsIn(m[i + 1].bytes, "chunked");
    assert HeaderAt(m + rest, i) && (m + rest)[i] == m[i] && (m + rest)[i + 1] == m[i + 1];
  }

  lemma TokenAppend(m: seq<Event>, rest: seq<Event>, sealed: nat, word: string)
    requires SaysToken(m, sealed, word) && forall j :: 0 <= j < |rest| ==> !rest[j].MessageBegin?
    ensures SaysToken(m + rest, |m + rest|, word)
  {
    hide IsConn, HasClosed, EndsIn;
    var i :| 0 <= i < |m| && HeaderAt(m, i) && IsConn(m[i].bytes)
      && (if i + 1 < sealed then HasElement(m[i + 1].bytes, word) else HasClosed(m[i + 1].bytes, word));
    assert HeaderAt(m + rest, i) && (m + rest)[i] == m[i] && (m + rest)[i + 1] == m[i + 1];
  }

  lemma FlagsAppend(f: Flags, m: seq<Event>, rest: seq<Event>, sealed: nat)
    requires FlagsSay(f, m, sealed) && sealed <= |m| && forall j :: 0 <= j < |rest| ==> !rest[j].MessageBegin?
    ensures FlagsSay(f, m + rest, |m + rest|)
  {
    hide SaysChunked, SaysToken;
    if f.chunked { ChunkedAppend(m, rest, sealed); }
    if f.keepAlive { TokenAppend(m, rest, sealed, "keep-alive"); }
    if f.close { TokenAppend(m, rest, sealed, "close"); }
    if f.connUpgrade { TokenAppend(m, rest, sealed, "upgrade"); }
  }

  /** The last run of bytes grows. */
  function Grown(m: seq<Event>, s: string): seq<Event>
    requires m != [] && m[|m| - 1].Data?
  {
    m[..|m| - 1] + [Data(m[|m| - 1].kind, m[|m| - 1].bytes + s)]
  }

  lemma ChunkedGrows(m: seq<Event>, s: string, sealed: nat)
    requires m != [] && m[|m| - 1].Data? && SaysChunked(m, sealed)
    requires sealed == |m| - 1 || (sealed == |m| && m[|m| - 1].kind != HeaderValueData)
    ensures SaysChunked(Grown(m, s), sealed)
  {
    hide IsTE, EndsIn;
    var i :| 0 <= i < |m| && HeaderAt(m, i) && i + 1 < sealed && IsTE(m[i].bytes) && EndsIn(m[i + 1].bytes, "chunked");
    var g := Grown(m, s);
    assert i + 1 < |m| - 1;
    assert HeaderAt(g, i) && g[i] == m[i] && g[i + 1] == m[i + 1];
  }

  lemma TokenGrows(m: seq<Event>, s: string, sealed: nat, word: string)
    requires m != [] && m[|m| - 1].Data? && SaysToken(m, sealed, word)
    requires sealed == |m| - 1 || (sealed == |m| && m[|m| - 1].kind != HeaderValueData)
    ensures SaysToken(Grown(m, s), sealed, word)
  {
    hide IsConn, HasClosed, EndsIn;
    var i :| 0 <= i < |m| && HeaderAt(m, i) && IsConn(m[i].bytes)
      && (if i + 1 < sealed then HasElement(m[i + 1].bytes, word) else HasClosed(m[i + 1].bytes, word));
    var g := Grown(m, s);
    if i + 1 < |m| - 1 {
      assert HeaderAt(g, i) && g[i] == m[i] && g[i + 1] == m[i + 1];
    } else {
      ClosedStays(m[i + 1].bytes, s, word);
      assert HeaderAt(g, i) && g[i] == m[i] && g[i + 1].bytes == m[i + 1].bytes + s;
    }
  }

  lemma FlagsGrow(f: Flags, m: seq<Event>, s: string, sealed: nat)
    requires m != [] && m[|m| - 1].Data? && FlagsSay(f, m, sealed)
    requires sealed == |m| - 1 || (sealed == |m| && m[|m| - 1].kind != HeaderValueData)
    ensures FlagsSay(f, Grown(m, s), sealed)
  {
    hide SaysChunked, SaysToken, Grown;
    if f.chunked { ChunkedGrows(m, s, sealed); }
    if f.keepAlive { TokenGrows(m, s, sealed, "keep-alive"); }
    if f.close { TokenGrows(m, s, sealed, "close"); }
    if f.connUpgrade { TokenGrows(m, s, sealed, "upgrade"); }
  }

  // ----- The invariant -----

  predicate InName(s: State) {
    s.HeaderField? || s.HeaderValueDiscardWs? || s.HeaderValueDiscardWsAlmostDone? || s.HeaderValueDiscardLws?
  }

  predicate InValue(s: State) { s.HeaderValue? || s.HeaderAlmostDone? || s.HeaderValueLws? }

  function Sealed(p: Parser, m: seq<Event>): nat { if InValue(p.state) && m != [] then |m| - 1 else |m| }

  /** What the record says about the merged callbacks. */
  predicate Told(p: Parser, m: seq<Event>) {
    && FlagsSay(p.flags, m, Sealed(p, m))
    && (EndsWith(m, HeaderFieldData) <==> InName(p.state))
    && (InName(p.state) ==> FieldSays(p.headerState, p.index, m[|m| - 1].bytes))
    && (InValue(p.state) ==>
          && |m| >= 2 && HeaderAt(m, |m| - 2) && m[|m| - 1].bytes != ""
          && ValueSays(p.headerState, p.index, m[|m| - 2].bytes, m[|m| - 1].bytes))
  }

  // ----- The end of a header -----

  lemma LastHeader(p: Parser, m: seq<Event>)
    requires Told(p, m) && InValue(p.state)
    ensures |m| >= 2 && HeaderAt(m, |m| - 2) && ValueSays(p.headerState, p.index, m[|m| - 2].bytes, m[|m| - 1].bytes)
    ensures m[|m| - 1].bytes != "" && FlagsSay(p.flags, m, |m| - 1) && FlagsSay(p.flags, m, |m|)
  {
    hide FlagsSay, ValueSays;
    assert m + [] == m;
    FlagsAppend(p.flags, m, [], |m| - 1);
  }

  lemma LastSaysChunked(m: seq<Event>)
    requires |m| >= 2 && HeaderAt(m, |m| - 2) && IsTE(m[|m| - 2].bytes) && EndsIn(m[|m| - 1].bytes, "chunked")
    ensures SaysChunked(m, |m|)
  {
    hide IsTE, EndsIn;
    assert m[|m| - 2 + 1] == m[|m| - 1];
  }

  lemma LastSaysToken(m: seq<Event>, word: string)
    requires |m| >= 2 && HeaderAt(m, |m| - 2) && IsConn(m[|m| - 2].bytes) && EndsIn(m[|m| - 1].bytes, word)
    ensures SaysToken(m, |m|, word)
  {
    hide IsConn, EndsIn, HasClosed;
    assert m[|m| - 2 + 1] == m[|m| - 1];
  }

  /** The flag that the end of a header sets is what its value says. */
  lemma CommitSays(p: Parser, m: seq<Event>)
    requires Told(p, m) && InValue(p.state)
    ensures FlagsSay(Commit(p.flags, p.headerState), m, |m|)
  {
    LastHeader(p, m);
    hide IsTE, IsConn, EndsIn, ElementStart, Matched, SaysChunked, SaysToken, Told, HeaderAt;
    match p.headerState
    case TeChunked => LastSaysChunked(m);
    case ConnKeepAlive => LastSaysToken(m, "keep-alive");
    case ConnClose => LastSaysToken(m, "close");
    case ConnUpgrade => LastSaysToken(m, "upgrade");
    case _ =>
  }

  /** A header without a value sets none. */
  lemma NameSetsNothing(p: Parser, n: string)
    requires FieldSays(p.headerState, p.index, n)
    ensures Commit(p.flags, p.headerState) == p.flags
  {
  }

  /** A comma inside a value closes an element, and sets its flag. */
  lemma CommaSays(p: Parser, m: seq<Event>)
    requires Told(p, m) && p.state.HeaderValue? && IsConnectionWord(p.headerState)
    ensures FlagsSay(Commit(p.flags, p.headerState), Grown(m, ","), |m| - 1)
  {
    hide IsTE, IsConn, EndsIn, HasClosed, ElementStart, Matched, SaysChunked;
    FlagsGrow(p.flags, m, ",", |m| - 1);
    var i, g := |m| - 2, Grown(m, ",");
    var word := if p.headerState.ConnKeepAlive? then "keep-alive"
                else if p.headerState.ConnClose? then "close" else "upgrade";
    CommaCloses(m[|m| - 1].bytes, word);
    assert HeaderAt(g, i) && g[i] == m[i] && g[i + 1].bytes == m[|m| - 1].bytes + ",";
    assert SaysToken(g, |m| - 1, word);
  }

  // ----- What the actions emit -----

  lemma EmitGrows(m: seq<Event>, k: Kind, s: string)
    requires EndsWith(m, k)
    ensures Emit(m, Data(k, s)) == Grown(m, s)
  {
  }

  lemma EmitOpens(m: seq<Event>, e: Event)
    requires e.Data? ==> !EndsWith(m, e.kind)
    ensures Emit(m, e) == m + [e]
  {
  }

  lemma EmittedRun(m: seq<Event>, k: Kind, ch: char)
    ensures EmitAll(m, [Mark(k), Take(k)], ch) == Emit(m, Data(k, [ch]))
      && EmitAll(m, [Take(k)], ch) == Emit(m, Data(k, [ch]))
    ensures EmitAll(m, [Flush(k)], ch) == m && EmitAll(m, [], ch) == m
  {
    assert [Mark(k), Take(k)][1..] == [Take(k)] && [Take(k)][1..] == [] && [Flush(k)][1..] == [];
    assert EmitAll(m, [Mark(k), Take(k)], ch) == EmitAll(Emit(m, Data(k, "")), [Take(k)], ch);
    assert EmitAll(Emit(m, Data(k, "")), [Take(k)], ch) == Emit(Emit(m, Data(k, "")), Data(k, [ch]));
    EmitTwice(m, k, "", [ch]);
    assert "" + [ch] == [ch];
  }

  lemma EmittedEmpty(m: seq<Event>, k: Kind, rest: seq<Action>, ch: char)
    ensures EmitAll(m, [Mark(k), Flush(k)] + rest, ch) == EmitAll(Emit(m, Data(k, "")), rest, ch)
  {
    var acts := [Mark(k), Flush(k)] + rest;
    assert acts[1..] == [Flush(k)] + rest && ([Flush(k)] + rest)[1..] == rest;
    assert EmitAll(m, acts, ch) == EmitAll(Emit(m, Data(k, "")), acts[1..], ch);
  }

  // ----- Steps outside the headers -----

  /** An action that emits neither header bytes nor the start of a message. */
  predicate Foreign(a: Action) {
    match a
    case Mark(k) => k != HeaderFieldData && k != HeaderValueData
    case Take(k) => k != HeaderFieldData && k != HeaderValueData
    case Flush(k) => true
    case Notify(e) => !e.Data? && !e.MessageBegin?
  }

  predicate AllForeign(acts: seq<Action>) { forall i :: 0 <= i < |acts| ==> Foreign(acts[i]) }

  /** The step keeps the words, or starts a message with none; it does not end inside a header. */
  predicate Apart(f: Flags, o: Outcome) {
    match o
    case Fail(_, _) => true
    case Next(q, acts) =>
      !InName(q.state) && !InValue(q.state)
      && ((SameWords(q.flags, f) && AllForeign(acts))
        || (SameWords(q.flags, NO_FLAGS) && acts == [Notify(MessageBegin)]))
    case Exit(q, acts) => !InName(q.state) && !InValue(q.state) && SameWords(q.flags, f) && AllForeign(acts)
  }

  lemma {:induction false} ForeignEmits(f: Flags, m: seq<Event>, acts: seq<Action>, ch: char)
    requires AllForeign(acts) && FlagsSay(f, m, |m|) && !EndsWith(m, HeaderFieldData)
    ensures var n := EmitAll(m, acts, ch); FlagsSay(f, n, |n|) && !EndsWith(n, HeaderFieldData)
    decreases |acts|
  {
    hide FlagsSay;
    if acts != [] {
      assert AllForeign(acts[1..]) && Foreign(acts[0]);
      match acts[0]
      case Mark(k) => ForeignEmit(f, m, Data(k, "")); ForeignEmits(f, Emit(m, Data(k, "")), acts[1..], ch);
      case Take(k) => ForeignEmit(f, m, Data(k, [ch])); ForeignEmits(f, Emit(m, Data(k, [ch])), acts[1..], ch);
      case Flush(_) => ForeignEmits(f, m, acts[1..], ch);
      case Notify(e) => ForeignEmit(f, m, e); ForeignEmits(f, Emit(m, e), acts[1..], ch);
    }
  }

  lemma ForeignEmit(f: Flags, m: seq<Event>, e: Event)
    requires FlagsSay(f, m, |m|) && !EndsWith(m, HeaderFieldData) && !e.MessageBegin?
    requires e.Data? ==> e.kind != HeaderFieldData && e.kind != HeaderValueData
    ensures FlagsSay(f, Emit(m, e), |Emit(m, e)|) && !EndsWith(Emit(m, e), HeaderFieldData)
  {
    hide FlagsSay;
    if e.Data? && EndsWith(m, e.kind) {
      EmitGrows(m, e.kind, e.bytes);
      FlagsGrow(f, m, e.bytes, |m|);
    } else {
      EmitOpens(m, e);
      FlagsAppend(f, m, [e], |m|);
    }
  }

  /** A step apart from headers keeps what is told, once the end of any header is settled. */
  lemma ApartTold(f: Flags, m: seq<Event>, o: Outcome, ch: char)
    requires Apart(f, o) && FlagsSay(f, m, |m|) && !EndsWith(m, HeaderFieldData)
    ensures !o.Fail? ==> Told(o.parser, EmitAll(m, o.actions, ch))
  {
    if !o.Fail? {
      hide SaysChunked, SaysToken, EmitAll, Foreign;
      if o.actions == [Notify(MessageBegin)] && SameWords(o.parser.flags, NO_FLAGS) {
        BeginEmits(m, ch);
      } else {
        ForeignEmits(f, m, o.actions, ch);
      }
    }
  }

  lemma BeginEmits(m: seq<Event>, ch: char)
    ensures EmitAll(m, [Notify(MessageBegin)], ch) == m + [MessageBegin]
  {
    assert [Notify(MessageBegin)][1..] == [];
    assert EmitAll(m, [Notify(MessageBegin)], ch) == EmitAll(Emit(m, MessageBegin), [], ch);
  }

  // ----- Which steps are apart -----

  lemma UrlApart(p: Parser, ch: char, first: bool)
    ensures Apart(p.flags, UrlByte(p, ch, first))
  {
    RequestStates(p.state, ch);
    hide ParseUrlChar, InName, InValue;
  }

  lemma EndOfUrlApart(p: Parser, ch: char)
    ensures Apart(p.flags, EndOfUrl(p, ch))
  {
    hide UrlByte;
    UrlApart(p, ch, false);
  }

  lemma MethodApart(p: Parser, ch: char)
    requires p.state.StartReq? || p.state.ReqMethod?
    ensures Apart(p.flags, StepRequestLine(p, ch))
  {
    hide FirstGuess, SecondGuess, MethodString, UrlByte, EndOfUrl;
  }

  lemma LineApart(p: Parser, ch: char)
    requires PartOf(p.state).RequestLinePart?
    ensures Apart(p.flags, StepRequestLine(p, ch))
  {
    hide StartRequest, ReadMethod, UrlByte, EndOfUrl;
    if p.state.StartReq? || p.state.ReqMethod? {
      MethodApart(p, ch);
    } else {
      UrlApart(p, ch, false);
      UrlApart(p, ch, true);
      UrlApart(p.(state := ReqServerStart), ch, true);
      EndOfUrlApart(p, ch);
    }
  }

  lemma RequestStates(s: State, ch: char)
    ensures !InName(ParseUrlChar(s, ch)) && !InValue(ParseUrlChar(s, ch))
    ensures PartOf(s).RequestLinePart? ==> !InName(s) && !InValue(s)
  {
  }

  lemma VersionApart(p: Parser, ch: char)
    requires PartOf(p.state).VersionPart?
    ensures Apart(p.flags, StepVersion(p, ch))
  {
  }

  lemma StatusApart(p: Parser, ch: char)
    requires PartOf(p.state).StatusLinePart?
    ensures Apart(p.flags, StepStatusLine(p, ch))
  {
    hide StartStatus;
    StartStatusApart(p, ch);
  }

  lemma StartStatusApart(p: Parser, ch: char)
    ensures Apart(p.flags, StartStatus(p, ch))
  {
  }

  lemma NewMessageApart(p: Parser)
    ensures !InName(NewMessage(p)) && !InValue(NewMessage(p))
  {
  }

  lemma DoneApart(p: Parser)
    ensures Apart(p.flags, MessageDone(p)) && Apart(p.flags, HeadersDone(p))
  {
    NewMessageApart(p);
    NewMessageApart(p.(nread := 0));
    hide NewMessage, HasBody, NeedsEof;
  }

  lemma PrefixApart(f: Flags, a: Action, o: Outcome)
    requires Apart(f, o) && Foreign(a) && (o.Next? ==> SameWords(o.parser.flags, f) && AllForeign(o.actions))
    ensures Apart(f, Prefix([a], o))
  {
  }

  lemma DoneForeign(p: Parser)
    ensures MessageDone(p).Next? ==>
      SameWords(MessageDone(p).parser.flags, p.flags) && AllForeign(MessageDone(p).actions)
    ensures HeadersDone(p).Next? ==>
      SameWords(HeadersDone(p).parser.flags, p.flags) && AllForeign(HeadersDone(p).actions)
  {
    hide NewMessage, HasBody, NeedsEof;
  }

  lemma EndApart(p: Parser, ch: char)
    ensures Apart(p.flags, EndOfHeaders(p, ch))
  {
    hide Apart, MessageDone, HeadersDone, Prefix, AllForeign;
    DoneApart(p);
    DoneForeign(p);
    PrefixApart(p.flags, Notify(ChunkComplete), MessageDone(p));
    var e := Notify(HeadersComplete(p.verb, p.major, p.minor));
    var q, r := p.(upgrade := true), p.(upgrade := false);
    DoneApart(q);
    DoneForeign(q);
    PrefixApart(p.flags, e, HeadersDone(q));
    DoneApart(r);
    DoneForeign(r);
    PrefixApart(p.flags, e, HeadersDone(r));
    FailuresApart(p.flags);
  }

  lemma FailuresApart(f: Flags)
    ensures forall e :: Apart(f, Fail(e, []))
  {
  }

  lemma ChunkLineApart(p: Parser, ch: char)
    requires p.state.ChunkSizeStart? || p.state.ChunkSize? || p.state.ChunkParameters?
    ensures Apart(p.flags, StepBody(p, ch))
  {
    hide MessageDone, IsHex, Unhex, BodyByte, Foreign;
  }

  lemma ChunkEndApart(p: Parser, ch: char)
    requires p.state.ChunkSizeAlmostDone? || p.state.ChunkDataAlmostDone? || p.state.ChunkDataDone?
      || p.state.BodyIdentityEof?
    ensures Apart(p.flags, StepBody(p, ch))
  {
    hide MessageDone, IsHex, Unhex, BodyByte;
  }

  lemma BodyByteApart(p: Parser, next: State)
    requires next.BodyIdentity? || next.ChunkData? || next.ChunkDataAlmostDone?
    ensures Apart(p.flags, BodyByte(p, next))
  {
  }

  lemma LastByteApart(p: Parser)
    ensures Apart(p.flags, Prefix([Mark(Body), Take(Body), Flush(Body)], MessageDone(p.(contentLength := 0))))
  {
    NewMessageApart(p.(contentLength := 0));
    hide NewMessage;
  }

  lemma BodyStates(s: State)
    requires PartOf(s).BodyPart?
    ensures s.ChunkSizeStart? || s.ChunkSize? || s.ChunkParameters? || s.ChunkSizeAlmostDone? || s.ChunkData?
            || s.ChunkDataAlmostDone? || s.ChunkDataDone? || s.BodyIdentity? || s.BodyIdentityEof?
  {
  }

  lemma BodyApart(p: Parser, ch: char)
    requires PartOf(p.state).BodyPart?
    ensures Apart(p.flags, StepBody(p, ch))
  {
    hide Apart, MessageDone, BodyByte, PartOf, IsHex, Unhex, Prefix;
    if p.state.BodyIdentity? || p.state.ChunkData? {
      BodyByteApart(p, p.state);
      BodyByteApart(p, ChunkDataAlmostDone);
      LastByteApart(p);
    } else {
      hide StepBody;
      BodyStates(p.state);
      if p.state.ChunkSizeStart? || p.state.ChunkSize? || p.state.ChunkParameters? {
        ChunkLineApart(p, ch);
      } else {
        ChunkEndApart(p, ch);
      }
    }
  }

  lemma StartApart(p: Parser, ch: char)
    requires PartOf(p.state).StartPart?
    ensures Apart(p.flags, Dispatch(p, ch))
  {
    hide FirstGuess, StepRequestLine, StepVersion, StepStatusLine, StepHeaders, StepBody;
  }

  lemma OutsideHeaders(p: Parser)
    requires !PartOf(p.state).HeaderPart?
    ensures !InName(p.state) && !InValue(p.state)
  {
  }

  lemma DispatchApart(p: Parser, ch: char)
    requires !PartOf(p.state).HeaderPart?
    ensures Apart(p.flags, Dispatch(p, ch))
  {
    hide Apart, StartEither, StepRequestLine, StepVersion, StepStatusLine, StepHeaders, StepBody, PartOf;
    match PartOf(p.state)
    case StartPart => StartApart(p, ch);
    case RequestLinePart => LineApart(p, ch);
    case VersionPart => VersionApart(p, ch);
    case StatusLinePart => StatusApart(p, ch);
    case BodyPart => BodyApart(p, ch);
  }

  // ----- Header steps -----

  predicate StepTold(m: seq<Event>, o: Outcome, ch: char) {
    !o.Fail? ==> Told(o.parser, EmitAll(m, o.actions, ch))
  }

  lemma FlagsKept(f: Flags, m: seq<Event>, e: Event)
    requires FlagsSay(f, m, |m|) && !e.MessageBegin?
    ensures FlagsSay(f, m + [e], |m|) && FlagsSay(f, m + [e], |m| + 1)
  {
    hide SaysChunked, SaysToken;
    FlagsAppend(f, m, [e], |m|);
    if f.chunked { ChunkedKept(m, e); }
    if f.keepAlive { TokenKept(m, e, "keep-alive"); }
    if f.close { TokenKept(m, e, "close"); }
    if f.connUpgrade { TokenKept(m, e, "upgrade"); }
  }

  lemma ChunkedKept(m: seq<Event>, e: Event)
    requires SaysChunked(m, |m|) && !e.MessageBegin?
    ensures SaysChunked(m + [e], |m|)
  {
    hide IsTE, EndsIn;
    var i :| 0 <= i < |m| && HeaderAt(m, i) && i + 1 < |m| && IsTE(m[i].bytes) && EndsIn(m[i + 1].bytes, "chunked");
    assert HeaderAt(m + [e], i) && (m + [e])[i] == m[i] && (m + [e])[i + 1] == m[i + 1];
  }

  lemma TokenKept(m: seq<Event>, e: Event, word: string)
    requires SaysToken(m, |m|, word) && !e.MessageBegin?
    ensures SaysToken(m + [e], |m|, word)
  {
    hide IsConn, HasElement, HasClosed;
    var i :| 0 <= i < |m| && HeaderAt(m, i) && IsConn(m[i].bytes) && HasElement(m[i + 1].bytes, word);
    assert HeaderAt(m + [e], i) && (m + [e])[i] == m[i] && (m + [e])[i + 1] == m[i + 1];
  }

  lemma FieldStartTold(p: Parser, m: seq<Event>, ch: char)
    requires FlagsSay(p.flags, m, |m|) && !EndsWith(m, HeaderFieldData) && p.state.HeaderFieldStart?
    ensures StepTold(m, FieldStart(p, ch), ch)
  {
    hide EndOfHeaders, FirstFieldState, IsToken, Token, FlagsSay, EmitAll, FieldSays;
    if ch == LF {
      EndApart(p.(state := HeadersAlmostDone), ch);
      ApartTold(p.flags, m, EndOfHeaders(p.(state := HeadersAlmostDone), ch), ch);
    } else {
      EmittedRun(m, HeaderFieldData, ch);
      if ch != CR && IsToken(ch) {
        var e := Data(HeaderFieldData, [ch]);
        EmitOpens(m, e);
        FlagsKept(p.flags, m, e);
        FirstLetterSays(ch);
      }
    }
  }

  lemma FieldByteTold(p: Parser, m: seq<Event>, ch: char)
    requires Told(p, m) && p.state.HeaderField?
    ensures StepTold(m, FieldByte(p, ch), ch)
  {
    hide IsToken, Token, FlagsSay, EmitAll, FieldSays, FieldScan;
    EmittedRun(m, HeaderFieldData, ch);
    if IsToken(ch) {
      var n := m[|m| - 1].bytes;
      FieldSaysMore(p.headerState, p.index, n, ch);
      EmitGrows(m, HeaderFieldData, [ch]);
      FlagsGrow(p.flags, m, [ch], |m|);
    }
  }

  /** The first byte of a value after a name. */
  lemma ValueStartTold(p: Parser, m: seq<Event>, ch: char)
    requires Told(p, m) && InName(p.state) && ch != CR && ch != LF
    ensures StepTold(m, ValueStart(p, ch), ch)
  {
    hide FlagsSay, EmitAll, FieldSays, ValueSays, FirstValueState, Lower;
    var e := Data(HeaderValueData, [ch]);
    EmittedRun(m, HeaderValueData, ch);
    EmitOpens(m, e);
    FlagsKept(p.flags, m, e);
    var g := m + [e];
    assert HeaderAt(g, |g| - 2);
    if !p.headerState.ContentLength? { FirstValueSays(p.headerState, p.index, m[|m| - 1].bytes, ch); }
    NumbersSay(0, m[|m| - 1].bytes, [ch]);
    if ValueStart(p, ch).Next? { WordsOnly(p.flags, ValueStart(p, ch).parser.flags, g, |m|); }
  }

  lemma NumbersSay(index: nat, n: string, v: string)
    ensures ValueSays(ContentLengthNum, index, n, v) && ValueSays(ContentLengthWs, index, n, v)
  {
  }

  lemma WordsOnly(f: Flags, g: Flags, m: seq<Event>, sealed: nat)
    requires FlagsSay(f, m, sealed) && SameWords(f, g)
    ensures FlagsSay(g, m, sealed)
  {
  }

  lemma ValueByteTold(p: Parser, m: seq<Event>, ch: char)
    requires Told(p, m) && p.state.HeaderValue?
    ensures StepTold(m, ValueByte(p, ch), ch)
  {
    LastHeader(p, m);
    hide FlagsSay, EmitAll, ValueSays, ValueLetter, IsHeaderChar;
    EmittedRun(m, HeaderValueData, ch);
    if ch != CR && ch != LF && IsHeaderChar(ch) && ValueLetter(p, ch).Some? {
      EmitGrows(m, HeaderValueData, [ch]);
      ValueLetterFrame(p, ch);
      LetterTold(p, m, ch);
    }
  }

  /** One byte of a value: what it says, and the flag that a comma sets. */
  lemma LetterTold(p: Parser, m: seq<Event>, ch: char)
    requires Told(p, m) && p.state.HeaderValue? && ValueChar(ch) && ValueLetter(p, ch).Some?
    ensures
      var q, g := ValueLetter(p, ch).value, Grown(m, [ch]);
      ValueSays(q.headerState, q.index, m[|m| - 2].bytes, m[|m| - 1].bytes + [ch]) && FlagsSay(q.flags, g, |m| - 1)
  {
    LastHeader(p, m);
    hide FlagsSay, ValueSays, Told, ValueLetter, IsHeaderChar, HeaderAt, Grown;
    LetterSays(p, m[|m| - 2].bytes, m[|m| - 1].bytes, ch);
    LetterFlags(p, m, ch);
  }

  lemma LetterSays(p: Parser, n: string, v: string, ch: char)
    requires ValueSays(p.headerState, p.index, n, v) && v != "" && ValueChar(ch) && ValueLetter(p, ch).Some?
    ensures var q := ValueLetter(p, ch).value; ValueSays(q.headerState, q.index, n, v + [ch])
  {
    hide ValueSays, ValueScan, Commit, IsHeaderChar;
    if InContentLength(p.headerState) {
      NotTheName(p.headerState, p.index, n, v);
      NumbersSay(p.index, n, v + [ch]);
    } else {
      ValueSaysMore(p.headerState, p.index, n, v, ch);
    }
  }

  lemma FlagsOfLetter(p: Parser, ch: char)
    requires ValueLetter(p, ch).Some?
    ensures ValueLetter(p, ch).value.flags
      == if IsConnectionWord(p.headerState) && ch == ',' then Commit(p.flags, p.headerState) else p.flags
  {
    hide ValueScan, Commit;
  }

  lemma LetterFlags(p: Parser, m: seq<Event>, ch: char)
    requires Told(p, m) && p.state.HeaderValue? && ValueLetter(p, ch).Some?
    ensures m != [] && m[|m| - 1].Data? && FlagsSay(ValueLetter(p, ch).value.flags, Grown(m, [ch]), |m| - 1)
  {
    LastHeader(p, m);
    hide FlagsSay, ValueSays, ValueLetter, Told, Commit, Grown;
    FlagsOfLetter(p, ch);
    if IsConnectionWord(p.headerState) && ch == ',' {
      CommaSays(p, m);
      assert [ch] == ",";
    } else {
      FlagsGrow(p.flags, m, [ch], |m| - 1);
    }
  }

  lemma NotTheName(hs: HeaderState, index: nat, n: string, v: string)
    requires ValueSays(hs, index, n, v)
    ensures !hs.ContentLength? && !hs.Upgrade?
  {
  }

  /** What a fold does to the record. */
  lemma FoldStarts(p: Parser, ch: char)
    requires !p.headerState.ContentLength? && !p.headerState.Upgrade?
    ensures ValueStart(p, ch) ==
      Next(p.(state := HeaderValue, index := 0, headerState := FirstValueState(p.headerState, Lower(ch))),
           [Mark(HeaderValueData), Take(HeaderValueData)])
  {
    hide FirstValueState, Lower;
  }

  /** The blank that folds a value. */
  lemma FoldTold(p: Parser, m: seq<Event>, ch: char)
    requires Told(p, m) && p.state.HeaderValueLws? && IsBlank(ch)
    ensures
      var q := if p.headerState.ContentLengthNum? then p.(headerState := ContentLengthWs) else p;
      StepTold(m, ValueStart(q, ch), ch)
  {
    hide FlagsSay, EmitAll, ValueSays, FirstValueState, Lower, ValueStart, Grown;
    LastHeader(p, m);
    var n, v := m[|m| - 2].bytes, m[|m| - 1].bytes;
    var q := if p.headerState.ContentLengthNum? then p.(headerState := ContentLengthWs) else p;
    NumbersSay(p.index, n, v);
    NotTheName(q.headerState, q.index, n, v);
    FoldStarts(q, ch);
    HeaderGrows(m, [ch]);
    EmittedRun(m, HeaderValueData, ch);
    EmitGrows(m, HeaderValueData, [ch]);
    FlagsGrow(p.flags, m, [ch], |m| - 1);
    FoldedSays(q.headerState, q.index, n, v, ch);
  }

  lemma HeaderGrows(m: seq<Event>, s: string)
    requires |m| >= 2 && HeaderAt(m, |m| - 2)
    ensures
      var g := Grown(m, s);
      |g| == |m| && HeaderAt(g, |m| - 2) && EndsWith(g, HeaderValueData) && g[|m| - 2] == m[|m| - 2]
    ensures Grown(m, s)[|m| - 1].bytes == m[|m| - 1].bytes + s && EndsWith(m, HeaderValueData)
  {
  }

  lemma ValueLineTold(p: Parser, m: seq<Event>, ch: char)
    requires Told(p, m) && p.state.HeaderValueLws?
    ensures StepTold(m, AfterValueLine(p, ch), ch)
  {
    hide StepTold, FieldStart, ValueStart, Commit, FlagsSay, ValueSays;
    if IsBlank(ch) {
      FoldTold(p, m, ch);
    } else {
      CommitSays(p, m);
      FieldStartTold(p.(flags := Commit(p.flags, p.headerState), state := HeaderFieldStart), m, ch);
    }
  }

  lemma EmptyLineTold(p: Parser, m: seq<Event>, ch: char)
    requires Told(p, m) && p.state.HeaderValueDiscardLws?
    ensures StepTold(m, AfterEmptyLine(p, ch), ch)
  {
    hide FieldStart, Commit, FlagsSay, FieldSays, EmitAll;
    if IsBlank(ch) {
      EmittedRun(m, HeaderValueData, ch);
    } else {
      var e := Data(HeaderValueData, "");
      NameSetsNothing(p, m[|m| - 1].bytes);
      EmitOpens(m, e);
      FlagsKept(p.flags, m, e);
      var q := p.(state := HeaderFieldStart);
      FieldStartTold(q, m + [e], ch);
      var o := FieldStart(q, ch);
      if !o.Fail? { EmittedEmpty(m, HeaderValueData, o.actions, ch); }
    }
  }

  lemma HeaderTold(p: Parser, m: seq<Event>, ch: char)
    requires Told(p, m) && PartOf(p.state).HeaderPart?
    ensures StepTold(m, StepHeaders(p, ch), ch)
  {
    hide FieldStart, FieldByte, ValueStart, ValueByte, EndOfHeaders, AfterEmptyLine, AfterValueLine, FlagsSay,
         FieldSays,
         ValueSays, EmitAll, Apart;
    match p.state
    case HeaderFieldStart => FieldStartTold(p, m, ch);
    case HeaderField => FieldByteTold(p, m, ch);
    case HeaderValueDiscardLws => EmptyLineTold(p, m, ch);
    case HeaderValue => ValueByteTold(p, m, ch);
    case HeaderValueLws => ValueLineTold(p, m, ch);
    case HeaderValueDiscardWs =>
      EmittedRun(m, HeaderValueData, ch);
      if ch != CR && ch != LF { ValueStartTold(p, m, ch); }
    case HeadersAlmostDone =>
      EndApart(p, ch);
      ApartTold(p.flags, m, EndOfHeaders(p, ch), ch);
    case _ => EmittedRun(m, HeaderValueData, ch);
  }

  lemma CountTold(p: Parser, m: seq<Event>, n: nat)
    requires Told(p, m)
    ensures Told(p.(nread := n), m)
  {
  }

  /** Every byte keeps what is told. */
  lemma ByteTold(max: nat, p: Parser, m: seq<Event>, ch: char)
    requires Told(p, m)
    ensures StepTold(m, Step(max, p, ch), ch)
  {
    hide Told, StepTold, Dispatch;
    StepIs(max, p, ch);
    CountTold(p, m, p.nread + 1);
    DispatchTold(p, m, ch);
    DispatchTold(p.(nread := p.nread + 1), m, ch);
    NothingTold(m, ch);
  }

  lemma NothingTold(m: seq<Event>, ch: char)
    ensures forall e :: StepTold(m, Fail(e, []), ch)
  {
  }

  lemma DispatchTold(p: Parser, m: seq<Event>, ch: char)
    requires Told(p, m)
    ensures StepTold(m, Dispatch(p, ch), ch)
  {
    hide Apart, StepHeaders, EmitAll, FlagsSay, FieldSays, ValueSays, StartEither, StepRequestLine, StepVersion,
         StepStatusLine, StepBody,
         InName, InValue, PartOf;
    if PartOf(p.state).HeaderPart? {
      HeaderTold(p, m, ch);
    } else {
      OutsideHeaders(p);
      DispatchApart(p, ch);
      ApartTold(p.flags, m, Dispatch(p, ch), ch);
    }
  }

  // ----- Runs in any buffers -----

  predicate ResultTold(r: Result) {
    match r
    case Running(q, t) => Told(q, Merge(t.log))
    case Exited(_, q, log) => Told(q, Merge(log))
    case Failed(_, _, _) => true
  }

  lemma {:induction false} RunTold(max: nat, p: Parser, t: Tape, live: Option<Kind>, data: string, i: nat)
    requires i <= |data| && Related(p, t, live) && Told(p, Merge(t.log))
    ensures ResultTold(RunFrom(max, p, t, data, i))
    decreases |data| - i
  {
    hide Step, Merge, EmitAll, ApplyAll, Related, ParserMarks.After, Told;
    if i < |data| {
      StepRelated(max, p, t, live, data[i]);
      ByteTold(max, p, Merge(t.log), data[i]);
      var o := Step(max, p, data[i]);
      if o.Next? {
        RunTold(max, o.parser, ApplyAll(t, o.actions, data[i]), ParserMarks.After(live, o.actions), data, i + 1);
      }
    }
  }

  lemma {:induction false} BuffersTold(max: nat, p: Parser, log: seq<Event>, bufs: seq<string>)
    requires Resumable(p, log) && Told(p, Merge(log))
    ensures ResultTold(ExecutedAll(max, p, log, bufs))
    decreases |bufs|
  {
    hide RunFrom, Merge, Related, Told, Resumable;
    if bufs != [] {
      EntryRelated(p, log);
      RunTold(max, p, Entry(p, log), Live(p.state), bufs[0], 0);
      var r := Executed(max, p, log, bufs[0]);
      if r.Running? {
        var live := RunRelated(max, p, Entry(p, log), Live(p.state), bufs[0], 0);
        RelatedResumes(r.parser, r.tape, live);
        BuffersTold(max, r.parser, r.tape.log, bufs[1..]);
      }
    }
  }

  /** Some header of the current message has a name as asked and a value with the element. */
  predicate HasHeader(m: seq<Event>, conn: bool, word: string) {
    exists i :: 0 <= i < |m| && HeaderAt(m, i)
      && if conn then IsConn(m[i].bytes) && HasElement(m[i + 1].bytes, word)
         else IsTE(m[i].bytes) && EndsIn(m[i + 1].bytes, word)
  }

  predicate FlagsMean(p: Parser, m: seq<Event>) {
    && (p.flags.chunked ==> HasHeader(m, false, "chunked"))
    && (p.flags.keepAlive ==> HasHeader(m, true, "keep-alive"))
    && (p.flags.close ==> HasHeader(m, true, "close"))
    && (p.flags.connUpgrade ==> HasHeader(m, true, "upgrade"))
  }

  lemma TokenMeans(m: seq<Event>, sealed: nat, word: string)
    requires SaysToken(m, sealed, word)
    ensures HasHeader(m, true, word)
  {
    hide IsConn, HasClosed, EndsIn, IsTE;
    var i :| 0 <= i < |m| && HeaderAt(m, i) && IsConn(m[i].bytes)
      && (if i + 1 < sealed then HasElement(m[i + 1].bytes, word) else HasClosed(m[i + 1].bytes, word));
    assert IsConn(m[i].bytes) && HasElement(m[i + 1].bytes, word);
  }

  lemma ToldMeans(p: Parser, m: seq<Event>)
    requires Told(p, m)
    ensures FlagsMean(p, m)
  {
    hide IsConn, HasElement, EndsIn, IsTE, HasClosed, SaysToken, HasHeader;
    var n := Sealed(p, m);
    if p.flags.keepAlive { TokenMeans(m, n, "keep-alive"); }
    if p.flags.close { TokenMeans(m, n, "close"); }
    if p.flags.connUpgrade { TokenMeans(m, n, "upgrade"); }
    if p.flags.chunked { ChunkedMeans(m, n); }
  }

  lemma ChunkedMeans(m: seq<Event>, sealed: nat)
    requires SaysChunked(m, sealed)
    ensures HasHeader(m, false, "chunked")
  {
    hide IsConn, HasElement, EndsIn, IsTE;
    var i :| 0 <= i < |m| && HeaderAt(m, i) && i + 1 < sealed && IsTE(m[i].bytes) && EndsIn(m[i + 1].bytes, "chunked");
    assert IsTE(m[i].bytes) && EndsIn(m[i + 1].bytes, "chunked");
  }

  /** On a new connection of either role, after any input in any buffers: every flag is backed by a header of the
      message that the callbacks have reported. */
  lemma FlagsAreBacked(max: nat, role: Role, bufs: seq<string>)
    ensures
      match ExecutedAll(max, Init(role), [], bufs)
      case Running(q, t) => FlagsMean(q, Merge(t.log))
      case Exited(_, q, log) => FlagsMean(q, Merge(log))
      case Failed(_, _, _) => true
  {
    hide ExecutedAll, FlagsMean, Merge;
    InitTold(role);
    BuffersTold(max, Init(role), [], bufs);
    match ExecutedAll(max, Init(role), [], bufs)
    case Running(q, t) => ToldMeans(q, Merge(t.log));
    case Exited(_, q, log) => ToldMeans(q, Merge(log));
    case Failed(_, _, _) =>
  }

  lemma InitTold(role: Role)
    ensures Told(Init(role), Merge([])) && Resumable(Init(role), [])
  {
  }
}
