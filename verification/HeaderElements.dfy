/** The elements of `Transfer-Encoding` and `Connection` values: which of them the header machine sees, and exactly when
    a value sets a flag. */
module HeaderElements {
  import opened Bytes
  import opened ParserTypes
  import opened ParserStep
  import opened ParserRun
  import opened ParserBatches
  import opened ParserProgress
  import opened ParserSegments
  import opened HttpRequests
  import opened HeaderLineRuns

  // ----- Elements, as text -----

  /** A non-empty proper beginning, in either case, of the word that `m` looks for. */
  predicate Begins(e: string, m: HeaderState) {
    0 < |e| < |Wanted(m)| && FoldAll(e) == Wanted(m)[..|e|]
  }

  /** The word that `m` looks for, in either case, and spaces after it. */
  predicate Spells(e: string, m: HeaderState) {
    && 0 < |Wanted(m)| <= |e| && FoldAll(e[..|Wanted(m)|]) == Wanted(m)
    && forall k :: |Wanted(m)| <= k < |e| ==> e[k] == ' '
  }

  /** The words looked for in a transfer encoding (`te`) or a connection value. */
  predicate IsWord(te: bool, m: HeaderState) {
    if te then m.TeMatchingChunked?
    else m.ConnMatchingKeepAlive? || m.ConnMatchingClose? || m.ConnMatchingUpgrade?
  }

  /** A comma after the bytes `e` of an element does not end it: the machine takes the comma for a byte of the word
      it is matching, or, after `chunked`, for a byte that makes it another word. */
  predicate Swallows(te: bool, e: string) {
    if te then Begins(e, TeMatchingChunked) || Spells(e, TeMatchingChunked)
    else Begins(e, ConnMatchingKeepAlive) || Begins(e, ConnMatchingClose) || Begins(e, ConnMatchingUpgrade)
  }

  /** An element is read if it is the first, or starts with a byte that is a token character with its 0x20 bit set. */
  predicate Starts(v: string, j: nat)
    requires j < |v|
  {
    j == 0 || IsToken(Lower(v[j]))
  }

  /** Between `j` and `i` no comma ends the element that starts at `j`. */
  predicate Unended(te: bool, v: string, j: nat, i: nat)
    requires j < i <= |v|
  {
    forall d :: j < d < i && v[d] == ',' ==> Swallows(te, v[j..d])
  }

  /** The element that starts at `j` ends with the comma at `c`. */
  predicate EndsAt(te: bool, v: string, j: nat, c: nat)
    requires j < c < |v|
  {
    Starts(v, j) && v[c] == ',' && Unended(te, v, j, c) && !Swallows(te, v[j..c])
  }

  predicate Spaces(v: string, i: nat, k: nat)
    requires k <= |v|
  {
    forall s :: i <= s < k ==> v[s] == ' '
  }

  /** The machine looks for an element at `k`: at the start, or where an element it looked for has ended, and spaces. */
  ghost predicate Seen(te: bool, v: string, k: nat)
    requires k <= |v|
    decreases k
  {
    k == 0 || exists j: nat, c: nat :: j < c < k && Seen(te, v, j) && EndsAt(te, v, j, c) && Spaces(v, c + 1, k)
  }

  /** The word that `m` looks for is an element that the machine sees: the last one of a transfer encoding, any one of a
      connection value. */
  ghost predicate Says(te: bool, v: string, m: HeaderState) {
    exists k: nat, c: nat :: k < c <= |v| && Seen(te, v, k) && SaysAt(te, v, m, k, c)
  }

  predicate SaysAt(te: bool, v: string, m: HeaderState, k: nat, c: nat)
    requires k < c <= |v|
  {
    (c == |v| || (!te && v[c] == ',')) && Spells(v[k..c], m)
  }

  // ----- The state inside an element -----

  function WordHit(m: HeaderState): HeaderState {
    match m
    case TeMatchingChunked => TeChunked
    case ConnMatchingKeepAlive => ConnKeepAlive
    case ConnMatchingClose => ConnClose
    case ConnMatchingUpgrade => ConnUpgrade
    case _ => General
  }

  function Outside(te: bool): HeaderState { if te then TeToken else ConnToken }

  function Between(te: bool): HeaderState { if te then TeTokenStart else ConnTokenStart }

  /** The header state after the bytes `e` of an element. */
  predicate Rel(te: bool, e: string, hs: HeaderState, index: nat) {
    if IsWord(te, hs) then Begins(e, hs) && index == |e| - 1
    else if hs == Outside(te) then e != "" && forall m :: IsWord(te, m) ==> !Begins(e, m) && !Spells(e, m)
    else exists m :: IsWord(te, m) && hs == WordHit(m) && Spells(e, m)
  }

  lemma WordsAreLong(te: bool, m: HeaderState)
    requires IsWord(te, m)
    ensures 5 <= |Wanted(m)| <= 17
    ensures forall k :: 0 <= k < |Wanted(m)| ==> 'a' <= Wanted(m)[k] <= 'z' || Wanted(m)[k] == '-'
  {
  }

  lemma LowerIsFold(ch: char, c: char)
    requires ValueChar(ch) && ('a' <= c <= 'z' || c == '-')
    ensures Lower(ch) == c <==> Fold(ch) == c
  {
  }

  /** An element begins at most one of the words. */
  lemma OneWord(te: bool, e: string, m: HeaderState, n: HeaderState)
    requires IsWord(te, m) && IsWord(te, n) && (Begins(e, m) || Spells(e, m)) && (Begins(e, n) || Spells(e, n))
    ensures m == n
  {
    hide FoldAll;
    FirstOf(e, m);
    FirstOf(e, n);
  }

  lemma FirstOf(e: string, m: HeaderState)
    requires Begins(e, m) || Spells(e, m)
    ensures e != "" && Fold(e[0]) == Wanted(m)[0]
  {
    hide Wanted, Fold;
    if Begins(e, m) { assert FoldAll(e)[0] == Fold(e[0]); } else { assert FoldAll(e[..|Wanted(m)|])[0] == Fold(e[0]); }
  }

  /** One more byte of an element, against one word. */
  lemma Longer(e: string, ch: char, m: HeaderState)
    requires e != ""
    ensures Begins(e + [ch], m) <==> Begins(e, m) && |e| + 1 < |Wanted(m)| && Fold(ch) == Wanted(m)[|e|]
    ensures Spells(e + [ch], m) <==>
      (Spells(e, m) && ch == ' ') || (Begins(e, m) && |e| + 1 == |Wanted(m)| && Fold(ch) == Wanted(m)[|e|])
  {
    hide Wanted, Fold;
    var f, w := e + [ch], Wanted(m);
    assert FoldAll(f) == FoldAll(e) + [Fold(ch)];
    if |f| <= |w| {
      assert w[..|f|] == w[..|e|] + [w[|e|]];
      assert FoldAll(f)[..|e|] == FoldAll(e);
      assert f[..|f|] == f;
      if |f| == |w| { assert w[..|f|] == w; assert f[..|w|] == f; }
    } else {
      assert f[..|w|] == e[..|w|];
      assert f[|e|] == ch && forall k :: 0 <= k < |e| ==> e[k] == f[k];
    }
  }

  /** A byte that does not end the element. */
  lemma ElementStep(te: bool, e: string, hs: HeaderState, index: nat, ch: char)
    requires Rel(te, e, hs, index) && ValueChar(ch) && (ch == ',' ==> Swallows(te, e))
    ensures
      var s := ValueScan(hs, index, ch);
      Rel(te, e + [ch], s.headerState, s.index)
  {
    hide Begins, Spells, FoldAll, Wanted, IsHeaderChar, Fold, Lower;
    if IsWord(te, hs) {
      MatcherStep(te, e, hs, index, ch);
    } else if hs == Outside(te) {
      NoWordStep(te, e, ch);
    } else {
      var m :| IsWord(te, m) && hs == WordHit(m) && Spells(e, m);
      HitStep(te, e, m, index, ch);
    }
  }

  lemma NoWordStep(te: bool, e: string, ch: char)
    requires e != "" && forall m :: IsWord(te, m) ==> !Begins(e, m) && !Spells(e, m)
    ensures forall m :: IsWord(te, m) ==> !Begins(e + [ch], m) && !Spells(e + [ch], m)
    ensures !Swallows(te, e)
  {
    hide Begins, Spells;
    forall m | IsWord(te, m) ensures !Begins(e + [ch], m) && !Spells(e + [ch], m) { Longer(e, ch, m); }
  }

  lemma MatcherStep(te: bool, e: string, m: HeaderState, index: nat, ch: char)
    requires IsWord(te, m) && Begins(e, m) && index == |e| - 1 && ValueChar(ch)
    ensures
      var s := ValueScan(m, index, ch);
      Rel(te, e + [ch], s.headerState, s.index)
  {
    hide FoldAll, Wanted, IsHeaderChar, Fold, Lower, Begins, Spells;
    WordsAreLong(te, m);
    BeginsIsShort(e, m);
    var w := Wanted(m);
    LowerIsFold(ch, w[|e|]);
    Longer(e, ch, m);
    assert Bump(index) == |e|;
    if Fold(ch) != w[|e|] {
      forall n | IsWord(te, n) ensures !Begins(e + [ch], n) && !Spells(e + [ch], n) {
        Longer(e, ch, n);
        if Begins(e, n) || Spells(e, n) { OneWord(te, e, m, n); }
        if Spells(e, n) { SpellsIsLong(e, n); }
      }
    }
  }

  lemma BeginsIsShort(e: string, m: HeaderState)
    requires Begins(e, m)
    ensures 0 < |e| < |Wanted(m)|
  {
    hide FoldAll, Wanted;
  }

  lemma SpellsIsLong(e: string, m: HeaderState)
    requires Spells(e, m)
    ensures |Wanted(m)| <= |e| && !Begins(e, m)
  {
    hide FoldAll, Wanted;
  }

  lemma HitStep(te: bool, e: string, m: HeaderState, index: nat, ch: char)
    requires IsWord(te, m) && Spells(e, m) && (ch == ',' ==> Swallows(te, e))
    ensures
      var s := ValueScan(WordHit(m), index, ch);
      Rel(te, e + [ch], s.headerState, s.index)
  {
    hide FoldAll, Wanted, Fold, Lower, Begins, Spells;
    SpellsIsLong(e, m);
    WordsAreLong(te, m);
    Longer(e, ch, m);
    if ch != ' ' {
      forall n | IsWord(te, n) ensures !Begins(e + [ch], n) && !Spells(e + [ch], n) && !Begins(e, n) {
        Longer(e, ch, n);
        if Begins(e, n) || Spells(e, n) { OneWord(te, e, m, n); }
      }
    }
  }

  /** The comma that ends an element. */
  lemma ElementEnds(te: bool, e: string, hs: HeaderState, index: nat)
    requires Rel(te, e, hs, index) && !Swallows(te, e)
    ensures ValueScan(hs, index, ',') == Scan(Between(te), 0)
    ensures hs == Outside(te) || (!te && exists m :: IsWord(te, m) && hs == WordHit(m) && Spells(e, m))
  {
    hide FoldAll, Wanted, Fold, Begins, Spells, Lower;
  }

  /** The first byte of an element. */
  lemma ElementStarts(te: bool, ch: char)
    requires ValueChar(ch)
    ensures Rel(te, [ch], FirstValueState(if te then TransferEncoding else HeaderState.Connection, Lower(ch)), 0)
    ensures IsToken(Lower(ch)) ==> Rel(te, [ch], TokenStart(Between(te), Lower(ch)), 0)
    ensures !IsToken(Lower(ch)) ==> TokenStart(Between(te), Lower(ch)) == if ch == ' ' then Between(te) else General
  {
    hide IsHeaderChar, IsToken, Fold, Lower, Wanted;
    assert FoldAll([ch]) == [Fold(ch)];
    FirstBytes(ch);
    forall m | IsWord(te, m)
      ensures |Wanted(m)| > 1 && (Begins([ch], m) <==> Fold(ch) == Wanted(m)[0]) && !Spells([ch], m)
    {
      WordsAreLong(te, m);
      assert Wanted(m)[..1] == [Wanted(m)[0]];
    }
    FirstLetters();
  }

  lemma FirstBytes(ch: char)
    requires ValueChar(ch)
    ensures Lower(ch) == 'c' <==> Fold(ch) == 'c'
    ensures Lower(ch) == 'k' <==> Fold(ch) == 'k'
    ensures Lower(ch) == 'u' <==> Fold(ch) == 'u'
    ensures Lower(ch) == ' ' <==> ch == ' '
    ensures Lower(ch) != '\t' && IsToken('c') && IsToken('k') && IsToken('u')
    ensures Lower(ch) == ' ' ==> !IsToken(Lower(ch))
  {
  }

  lemma FirstLetters()
    ensures Wanted(TeMatchingChunked) != "" && Wanted(ConnMatchingKeepAlive) != ""
    ensures Wanted(ConnMatchingClose) != "" && Wanted(ConnMatchingUpgrade) != ""
    ensures Wanted(TeMatchingChunked)[0] == 'c' && Wanted(ConnMatchingKeepAlive)[0] == 'k'
    ensures Wanted(ConnMatchingClose)[0] == 'c' && Wanted(ConnMatchingUpgrade)[0] == 'u'
  {
  }

  // ----- Reading a value -----

  /** The record after the first `i` bytes of a value. */
  function Reads(p: Parser, v: string, i: nat): Parser
    requires 1 <= i <= |v|
    decreases i
  {
    if i == 1 then ValueBegun(p, v[0])
    else
      var q := Reads(p, v, i - 1);
      var s := ValueScan(q.headerState, q.index, v[i - 1]);
      var ended := IsConnectionWord(q.headerState) && v[i - 1] == ',';
      var f := if ended then Commit(q.flags, q.headerState) else q.flags;
      q.(headerState := s.headerState, index := s.index, flags := f)
  }

  /** The value of a header that the elements are looked for in. */
  predicate Listed(te: bool, p: Parser, v: string) {
    v != "" && AllValue(v) && p.headerState == if te then TransferEncoding else HeaderState.Connection
  }

  ghost predicate InElement(te: bool, v: string, j: nat, i: nat, q: Parser) {
    && j < i <= |v| && Seen(te, v, j) && Starts(v, j) && Unended(te, v, j, i)
    && Rel(te, v[j..i], q.headerState, q.index)
  }

  lemma RelStates(te: bool, e: string, hs: HeaderState, index: nat)
    requires Rel(te, e, hs, index)
    ensures hs != Between(te) && !hs.General? && !InContentLength(hs) && (te ==> !IsConnectionWord(hs))
    ensures !te ==> !hs.TeChunked?
  {
    hide Begins, Spells;
  }

  /** Between two elements the machine waits for the next. */
  predicate Waits(te: bool, q: Parser) { q.headerState == Between(te) && q.index == 0 }

  /** After every byte the machine is between elements, inside one that it has seen start, or lost. */
  lemma {:induction false} Traced(te: bool, p: Parser, v: string, i: nat) returns (j: nat)
    requires Listed(te, p, v) && 1 <= i <= |v|
    ensures
      var q := Reads(p, v, i);
      if q.headerState == Between(te) then q.index == 0 && Seen(te, v, i)
      else q.headerState.General? || InElement(te, v, j, i, q)
    decreases i
  {
    hide Rel, Swallows, IsHeaderChar, Starts, Unended, FirstValueState, ValueScan, Seen, AllValue, ValueBegun;
    BytesAreValues(v);
    if i == 1 {
      j := 0;
      FirstIsElement(te, p, v);
    } else {
      j := Traced(te, p, v, i - 1);
      var q := Reads(p, v, i - 1);
      if q.headerState == Between(te) {
        j := i - 1;
        BetweenStep(te, v, i - 1, q);
      } else if q.headerState.General? {
        LostForGood(q.index, v[i - 1]);
      } else {
        InElementStep(te, v, j, i - 1, q);
      }
    }
  }

  lemma LostForGood(index: nat, ch: char)
    ensures ValueScan(General, index, ch) == Scan(General, index)
  {
  }

  lemma BytesAreValues(v: string)
    requires AllValue(v)
    ensures forall k :: 0 <= k < |v| ==> ValueChar(v[k])
  {
    hide IsHeaderChar;
  }

  lemma FirstIsElement(te: bool, p: Parser, v: string)
    requires Listed(te, p, v)
    ensures InElement(te, v, 0, 1, ValueBegun(p, v[0])) && ValueBegun(p, v[0]).headerState != Between(te)
  {
    hide Rel, IsHeaderChar, FirstValueState, Lower;
    ElementStarts(te, v[0]);
    assert v[0..1] == [v[0]];
    RelStates(te, [v[0]], ValueBegun(p, v[0]).headerState, 0);
  }

  /** One byte between elements. */
  lemma BetweenStep(te: bool, v: string, i: nat, q: Parser)
    requires 1 <= i < |v| && Waits(te, q) && Seen(te, v, i) && ValueChar(v[i])
    ensures
      var s := ValueScan(q.headerState, q.index, v[i]);
      if s.headerState == Between(te) then s.index == 0 && Seen(te, v, i + 1)
      else s.headerState.General? || InElement(te, v, i, i + 1, q.(headerState := s.headerState, index := s.index))
  {
    hide Rel, IsHeaderChar, IsToken, Lower, TokenStart, Seen;
    var ch := v[i];
    ElementStarts(te, ch);
    assert v[i..i + 1] == [ch];
    if ch == ' ' { SeenFurther(te, v, i); }
    if IsToken(Lower(ch)) { RelStates(te, [ch], TokenStart(Between(te), Lower(ch)), 0); }
  }

  lemma SeenFurther(te: bool, v: string, i: nat)
    requires 1 <= i < |v| && Seen(te, v, i) && v[i] == ' '
    ensures Seen(te, v, i + 1)
  {
    hide EndsAt;
    var j: nat, c: nat :| j < c < i && Seen(te, v, j) && EndsAt(te, v, j, c) && Spaces(v, c + 1, i);
    assert Spaces(v, c + 1, i + 1);
  }

  lemma InElementStep(te: bool, v: string, j: nat, i: nat, q: Parser)
    requires i < |v| && InElement(te, v, j, i, q) && ValueChar(v[i])
    ensures
      var s := ValueScan(q.headerState, q.index, v[i]);
      if v[i] == ',' && !Swallows(te, v[j..i]) then s == Scan(Between(te), 0) && Seen(te, v, i + 1)
      else
        InElement(te, v, j, i + 1, q.(headerState := s.headerState, index := s.index))
        && s.headerState != Between(te)
  {
    hide Rel, Swallows, IsHeaderChar, IsToken, Lower, ValueScan;
    var s := ValueScan(q.headerState, q.index, v[i]);
    assert v[j..i] + [v[i]] == v[j..i + 1];
    if v[i] == ',' && !Swallows(te, v[j..i]) {
      ElementEnds(te, v[j..i], q.headerState, q.index);
      assert EndsAt(te, v, j, i) && Spaces(v, i + 1, i + 1);
    } else {
      ElementStep(te, v[j..i], q.headerState, q.index, v[i]);
      RelStates(te, v[j..i + 1], s.headerState, s.index);
    }
  }

  lemma BetweenScan(te: bool, ch: char, index: nat)
    ensures ValueScan(Between(te), index, ch) == Scan(TokenStart(Between(te), Lower(ch)), index)
  {
    hide TokenStart, Lower;
  }

  /** From a place where it looks for an element, the machine follows the element up to the comma that ends it. */
  lemma {:induction false} ElementRead(te: bool, p: Parser, v: string, j: nat, i: nat)
    requires Listed(te, p, v) && j < i <= |v| && Starts(v, j) && Unended(te, v, j, i)
    requires j > 0 ==> Waits(te, Reads(p, v, j))
    ensures Rel(te, v[j..i], Reads(p, v, i).headerState, Reads(p, v, i).index)
    decreases i
  {
    hide Rel, Swallows, IsHeaderChar, IsToken, Lower, ValueScan, ValueBegun, TokenStart;
    var ch := v[i - 1];
    if i == j + 1 {
      if j == 0 { FirstIsElement(te, p, v); } else { BetweenScan(te, ch, 0); }
      ElementStarts(te, ch);
      assert v[j..i] == [ch];
    } else {
      ElementRead(te, p, v, j, i - 1);
      var q := Reads(p, v, i - 1);
      assert v[j..i - 1] + [ch] == v[j..i];
      ElementStep(te, v[j..i - 1], q.headerState, q.index, ch);
    }
  }

  lemma {:induction false} WaitsOn(te: bool, p: Parser, v: string, i: nat, k: nat)
    requires Listed(te, p, v) && 1 <= i <= k <= |v| && Spaces(v, i, k) && Waits(te, Reads(p, v, i))
    ensures Waits(te, Reads(p, v, k))
    decreases k
  {
    hide ValueScan, ValueBegun, AllValue;
    if i < k {
      WaitsOn(te, p, v, i, k - 1);
      SpaceWaits(te);
    }
  }

  lemma SpaceWaits(te: bool)
    ensures ValueScan(Between(te), 0, ' ') == Scan(Between(te), 0)
  {
  }

  lemma CommaWaits(te: bool, p: Parser, v: string, j: nat, c: nat)
    requires j < c < |v| && 1 <= c && EndsAt(te, v, j, c)
    requires Rel(te, v[j..c], Reads(p, v, c).headerState, Reads(p, v, c).index)
    ensures Waits(te, Reads(p, v, c + 1))
  {
    hide Rel, Swallows, Starts, Unended, ValueScan, ValueBegun;
    var q := Reads(p, v, c);
    ElementEnds(te, v[j..c], q.headerState, q.index);
  }

  /** Wherever the text says that it looks for an element, the machine does. */
  lemma {:induction false} SeenIsRead(te: bool, p: Parser, v: string, k: nat)
    requires Listed(te, p, v) && 1 <= k <= |v| && Seen(te, v, k)
    ensures Waits(te, Reads(p, v, k))
    decreases k
  {
    hide Rel, AllValue, EndsAt, Reads, Waits;
    var j: nat, c: nat :| j < c < k && Seen(te, v, j) && EndsAt(te, v, j, c) && Spaces(v, c + 1, k);
    if j > 0 { SeenIsRead(te, p, v, j); }
    EndsIsUnended(te, v, j, c);
    ElementRead(te, p, v, j, c);
    CommaWaits(te, p, v, j, c);
    WaitsOn(te, p, v, c + 1, k);
  }

  lemma EndsIsUnended(te: bool, v: string, j: nat, c: nat)
    requires j < c < |v| && EndsAt(te, v, j, c)
    ensures Starts(v, j) && Unended(te, v, j, c)
  {
    hide Starts, Unended, Swallows;
  }

  // ----- The flags -----

  lemma SpellsStarts(te: bool, v: string, k: nat, c: nat, m: HeaderState)
    requires k < c <= |v| && AllValue(v) && IsWord(te, m) && Spells(v[k..c], m)
    ensures Starts(v, k) && Unended(te, v, k, c)
  {
    hide FoldAll, IsHeaderChar, IsToken, Lower, Fold, Wanted, Swallows;
    var e := v[k..c];
    FirstOf(e, m);
    FirstLetters();
    FirstBytes(v[k]);
    forall d | k < d < c ensures v[d] != ',' { WordHasNoComma(te, e, m, d - k); }
  }

  lemma WordHasNoComma(te: bool, e: string, m: HeaderState, d: nat)
    requires IsWord(te, m) && Spells(e, m) && d < |e|
    ensures e[d] != ','
  {
    hide Wanted;
    WordsAreLong(te, m);
    if d < |Wanted(m)| { assert FoldAll(e[..|Wanted(m)|])[d] == Fold(e[d]); }
  }

  /** The machine has read a word exactly when it stands where an element was looked for. */
  lemma WordExactly(te: bool, p: Parser, v: string, c: nat, m: HeaderState)
    requires Listed(te, p, v) && 1 <= c <= |v| && IsWord(te, m)
    ensures Reads(p, v, c).headerState == WordHit(m) <==> exists k: nat :: k < c && Seen(te, v, k) && Spells(v[k..c], m)
  {
    hide Begins, Spells, Starts, Unended, Seen, Reads, IsHeaderChar;
    var q := Reads(p, v, c);
    if q.headerState == WordHit(m) {
      var j := Traced(te, p, v, c);
      HitIsSpelt(te, v[j..c], q.headerState, q.index, m);
    }
    if k: nat :| k < c && Seen(te, v, k) && Spells(v[k..c], m) {
      SpellsStarts(te, v, k, c, m);
      if k > 0 { SeenIsRead(te, p, v, k); }
      ElementRead(te, p, v, k, c);
      SpeltIsHit(te, v[k..c], q.headerState, q.index, m);
    }
  }

  lemma HitIsSpelt(te: bool, e: string, hs: HeaderState, index: nat, m: HeaderState)
    requires Rel(te, e, hs, index) && IsWord(te, m) && hs == WordHit(m)
    ensures Spells(e, m)
  {
    hide Begins, Spells;
  }

  lemma SpeltIsHit(te: bool, e: string, hs: HeaderState, index: nat, m: HeaderState)
    requires Rel(te, e, hs, index) && IsWord(te, m) && Spells(e, m)
    ensures hs == WordHit(m)
  {
    hide Begins, Spells, Wanted;
    SpellsIsLong(e, m);
    if IsWord(te, hs) {
      OneWord(te, e, m, hs);
    } else if hs != Outside(te) {
      var n :| IsWord(te, n) && hs == WordHit(n) && Spells(e, n);
      OneWord(te, e, m, n);
    }
  }

  /** The flag that a word sets. */
  predicate Flag(f: Flags, m: HeaderState) {
    match m
    case TeMatchingChunked => f.chunked
    case ConnMatchingKeepAlive => f.keepAlive
    case ConnMatchingClose => f.close
    case ConnMatchingUpgrade => f.connUpgrade
    case _ => false
  }

  lemma CommitFlag(te: bool, f: Flags, hs: HeaderState, m: HeaderState)
    requires IsWord(te, m)
    ensures Flag(Commit(f, hs), m) <==> Flag(f, m) || hs == WordHit(m)
  {
  }

  /** A connection word that a comma has ended by `i`. */
  ghost predicate SaidBy(v: string, m: HeaderState, i: nat)
    requires i <= |v|
  {
    exists k: nat, c: nat :: k < c < i && v[c] == ',' && Seen(false, v, k) && Spells(v[k..c], m)
  }

  lemma NothingSaid(v: string, m: HeaderState)
    requires 1 <= |v|
    ensures !SaidBy(v, m, 1)
  {
    hide Seen, Spells;
  }

  lemma {:induction false} FlagRead(te: bool, p: Parser, v: string, i: nat, m: HeaderState)
    requires Listed(te, p, v) && 1 <= i <= |v| && IsWord(te, m)
    ensures Flag(Reads(p, v, i).flags, m) <==> Flag(p.flags, m) || (!te && SaidBy(v, m, i))
    decreases i
  {
    hide Spells, Seen, AllValue, ValueScan, FirstValueState, Commit, InElement, SaidBy, Flag;
    if i == 1 {
      NothingSaid(v, m);
      FirstFlags(te, p, v);
    } else {
      FlagRead(te, p, v, i - 1, m);
      var q := Reads(p, v, i - 1);
      StateRead(te, p, v, i - 1);
      CommitFlag(te, q.flags, q.headerState, m);
      WordExactly(te, p, v, i - 1, m);
      if !te {
        SaidFurther(v, m, i - 1);
        WordEnds(m);
      }
    }
  }

  lemma FirstFlags(te: bool, p: Parser, v: string)
    requires Listed(te, p, v)
    ensures ValueBegun(p, v[0]).flags == p.flags
  {
    hide FirstValueState;
  }

  predicate StateOk(te: bool, hs: HeaderState) {
    !InContentLength(hs) && if te then !IsConnectionWord(hs) else !hs.TeChunked?
  }

  lemma StateRead(te: bool, p: Parser, v: string, i: nat)
    requires Listed(te, p, v) && 1 <= i <= |v|
    ensures StateOk(te, Reads(p, v, i).headerState)
  {
    hide Reads, AllValue, Rel, Seen, Unended, Starts;
    var q := Reads(p, v, i);
    var j := Traced(te, p, v, i);
    if !q.headerState.General? && q.headerState != Between(te) { RelStates(te, v[j..i], q.headerState, q.index); }
  }

  lemma CommitKinds(te: bool, f: Flags, hs: HeaderState)
    requires StateOk(te, hs)
    ensures
      var g := Commit(f, hs);
      g == if te then f.(chunked := g.chunked)
           else f.(keepAlive := g.keepAlive, close := g.close, connUpgrade := g.connUpgrade)
  {
  }

  /** A value changes no more than this before its line ends. */
  predicate OnlyFlags(te: bool, p: Parser, q: Parser) {
    && q == p.(state := HeaderValue, headerState := q.headerState, index := q.index, flags := q.flags)
    && q.flags == p.flags.(keepAlive := q.flags.keepAlive, close := q.flags.close, connUpgrade := q.flags.connUpgrade)
    && (te ==> q.flags == p.flags)
  }

  lemma {:induction false} ReadFrame(te: bool, p: Parser, v: string, i: nat)
    requires Listed(te, p, v) && 1 <= i <= |v|
    ensures OnlyFlags(te, p, Reads(p, v, i))
    decreases i
  {
    hide AllValue, ValueScan, FirstValueState, Commit;
    if i > 1 {
      ReadFrame(te, p, v, i - 1);
      StateRead(te, p, v, i - 1);
      var q := Reads(p, v, i - 1);
      CommitKinds(te, q.flags, q.headerState);
    }
  }

  lemma WordEnds(m: HeaderState)
    requires IsWord(false, m)
    ensures IsConnectionWord(WordHit(m))
  {
  }

  lemma SaidFurther(v: string, m: HeaderState, i: nat)
    requires i < |v|
    ensures SaidBy(v, m, i + 1) <==>
      SaidBy(v, m, i) || (v[i] == ',' && exists k: nat :: k < i && Seen(false, v, k) && Spells(v[k..i], m))
  {
    hide Spells, Seen;
  }

  // ----- Main results -----

  lemma {:induction false} ReadsFold(te: bool, p: Parser, v: string, i: nat)
    requires Listed(te, p, v) && 1 <= i <= |v|
    ensures ValueFold(ValueBegun(p, v[0]), v, 1, i) == Some(Reads(p, v, i))
    decreases i
  {
    hide IsHeaderChar, ValueFold, ValueScan, ValueBegun, Commit;
    if i == 1 {
      ValueCounted(ValueBegun(p, v[0]), v, 1);
    } else {
      ReadsFold(te, p, v, i - 1);
      StateRead(te, p, v, i - 1);
      BytesAreValues(v);
      ValueSnoc(ValueBegun(p, v[0]), v, 1, i - 1);
    }
  }

  /** The flags after the whole value, once its line has ended. */
  lemma ValueSays(te: bool, p: Parser, v: string, m: HeaderState)
    requires Listed(te, p, v) && IsWord(te, m)
    ensures
      var q := Reads(p, v, |v|);
      var f := Commit(q.flags, q.headerState);
      (Flag(f, m) <==> Flag(p.flags, m) || Says(te, v, m))
      && f == if te then p.flags.(chunked := f.chunked)
              else p.flags.(keepAlive := f.keepAlive, close := f.close, connUpgrade := f.connUpgrade)
  {
    hide Spells, Seen, Reads, AllValue, SaidBy, Commit, Says, Flag;
    var q := Reads(p, v, |v|);
    FlagRead(te, p, v, |v|, m);
    ReadFrame(te, p, v, |v|);
    StateRead(te, p, v, |v|);
    CommitFlag(te, q.flags, q.headerState, m);
    CommitKinds(te, q.flags, q.headerState);
    WordExactly(te, p, v, |v|, m);
    SaysInAll(te, v, m);
  }

  lemma SaysInAll(te: bool, v: string, m: HeaderState)
    ensures Says(te, v, m) <==>
      (!te && SaidBy(v, m, |v|)) || exists k: nat :: k < |v| && Seen(te, v, k) && Spells(v[k..|v|], m)
  {
    hide Spells, Seen;
    if k: nat, c: nat :| k < c <= |v| && Seen(te, v, k) && SaysAt(te, v, m, k, c) {
      if c < |v| { assert SaidBy(v, m, |v|); }
    }
    if k: nat :| k < |v| && Seen(te, v, k) && Spells(v[k..|v|], m) { assert SaysAt(te, v, m, k, |v|); }
    if !te {
      if k: nat, c: nat :| k < c < |v| && v[c] == ',' && Seen(false, v, k) && Spells(v[k..c], m) {
        assert SaysAt(te, v, m, k, c);
      }
    }
  }

  predicate AllBlank(b: string) { forall k :: 0 <= k < |b| ==> IsBlank(b[k]) }

  lemma {:induction false} BlanksLead(max: nat, p: Parser, t: Tape, b: string)
    requires p.state.HeaderValueDiscardWs? && AllBlank(b) && p.nread + |b| <= max
    ensures Leads(max, p, t, b, p.(nread := p.nread + |b|), t)
    decreases |b|
  {
    hide RunFrom, IsBlank, Step;
    if b == "" {
      LeadsNowhere(max, p, t);
    } else {
      var q := p.(nread := p.nread + 1);
      BlankStep(max, p, b[0]);
      LeadsQuietly(max, p, t, b[0], q);
      BlanksLead(max, q, t, b[1..]);
      Join(max, p, t, [b[0]], q, t, b[1..], p.(nread := p.nread + |b|), t);
      assert [b[0]] + b[1..] == b;
    }
  }

  lemma BlankStep(max: nat, p: Parser, ch: char)
    requires p.state.HeaderValueDiscardWs? && IsBlank(ch) && p.nread < max
    ensures Step(max, p, ch) == Next(p.(nread := p.nread + 1), [])
  {
    hide Step, FieldStart, FieldByte, ValueStart, ValueByte, AfterEmptyLine, AfterValueLine, EndOfHeaders;
    HeaderStepIs(max, p, ch);
  }

  /** The name of a transfer encoding (`te`) or of a connection header. */
  predicate IsListName(te: bool, n: string) {
    && n != "" && AllTokens(n)
    && if te then FoldAll(n) == "transfer-encoding" else FoldAll(n) == "connection" || FoldAll(n) == "proxy-connection"
  }

  lemma ListNameRead(te: bool, p: Parser, n: string)
    requires IsListName(te, n)
    ensures
      var q := NameRead(p, n);
      q == p.(nread := p.nread + |n| + 1, state := HeaderValueDiscardWs, index := q.index, usesTE := p.usesTE || te,
              headerState := if te then TransferEncoding else HeaderState.Connection)
  {
    hide FoldAll, AllTokens, NameRead;
    NameReadExactly(p, n);
  }

  lemma ListValueLeads(max: nat, te: bool, p: Parser, log: seq<Event>, v: string)
    requires p.state.HeaderValueDiscardWs? && Listed(te, p, v) && !IsBlank(v[0]) && p.nread + |v| <= max
    ensures Leads(max, p, Tape(log, false), v, Reads(p, v, |v|).(nread := p.nread + |v|),
                  Tape(log + [Data(HeaderValueData, v)], true))
  {
    hide RunFrom, ValueFold, AllValue, IsBlank, ValueBegun, Reads;
    FirstIsValue(v);
    ReadsFold(te, p, v, |v|);
    ValueLeads(max, p, log, v, Reads(p, v, |v|));
  }

  /** A whole line, with blanks before its value: what it says is what the text of the value says. */
  lemma ListLine(max: nat, te: bool, p: Parser, log: seq<Event>, n: string, b: string, v: string) returns (q: Parser)
    requires p.state.HeaderFieldStart? && IsListName(te, n) && AllBlank(b)
    requires v != "" && AllValue(v) && !IsBlank(v[0]) && p.nread + |n| + |b| + |v| + 3 <= max
    ensures LeadsToLine(max, p, Tape(log, false), n + ":" + b + v + "\r\n", q,
                        Tape(log + EventsOf(Header(n, v)), false))
    ensures q == p.(nread := p.nread + |n| + |b| + |v| + 3, headerState := q.headerState, index := q.index,
                    usesTE := p.usesTE || te, flags := q.flags)
    ensures q.flags == if te then p.flags.(chunked := q.flags.chunked)
                       else p.flags.(keepAlive := q.flags.keepAlive, close := q.flags.close,
                                     connUpgrade := q.flags.connUpgrade)
    ensures forall m :: IsWord(te, m) ==> (Flag(q.flags, m) <==> Flag(p.flags, m) || Says(te, v, m))
  {
    hide RunFrom, NameRead, AllTokens, AllBlank, AllValue, IsBlank, FoldAll, Says, Flag, Reads, Commit, Leads,
         LeadsToLine;
    var t, u := Tape(log, false), Tape(log + [Data(HeaderFieldData, n)], false);
    ListNameIs(te, n);
    ListNameRead(te, p, n);
    NameLeads(max, p, log, n);
    var a := NameRead(p, n);
    BlanksLead(max, a, u, b);
    var c := a.(nread := a.nread + |b|);
    Join(max, p, t, n + ":", a, u, b, c, u);
    ListValueLeads(max, te, c, u.log, v);
    ReadFrame(te, c, v, |v|);
    var d := Reads(c, v, |v|).(nread := c.nread + |v|);
    var w := Tape(u.log + [Data(HeaderValueData, v)], true);
    Join(max, p, t, n + ":" + b, c, u, v, d, w);
    LineEnds(max, d, w.log, true);
    var e := d.(nread := d.nread + 2, state := HeaderValueLws);
    Join(max, p, t, n + ":" + b + v, d, w, "\r\n", e, Tape(w.log, false));
    ListLineDone(max, p, t, n + ":" + b + v + "\r\n", e, Tape(w.log, false));
    q := Settled(e);
    assert w.log == log + EventsOf(Header(n, v));
    ValueSays(te, c, v, if te then TeMatchingChunked else ConnMatchingClose);
    forall m | IsWord(te, m) ensures Flag(q.flags, m) <==> Flag(p.flags, m) || Says(te, v, m) {
      ValueSays(te, c, v, m);
    }
  }

  lemma ListNameIs(te: bool, n: string)
    requires IsListName(te, n)
    ensures n != "" && AllTokens(n)
  {
  }

  lemma ListLineDone(max: nat, p: Parser, t: Tape, w: string, q: Parser, u: Tape)
    requires Leads(max, p, t, w, q, u) && q.state.HeaderValueLws? && !u.open
    ensures LeadsToLine(max, p, t, w, Settled(q), u)
  {
    hide RunFrom, Settled;
    LineDone(max, p, t, w, q, u);
  }

  /** A `Transfer-Encoding` line sets the chunked flag exactly when `chunked`, with at most spaces after it, is the last
      element of its value and one that the machine sees. */
  lemma ChunkedExactly(max: nat, p: Parser, log: seq<Event>, n: string, b: string, v: string) returns (q: Parser)
    requires p.state.HeaderFieldStart? && IsListName(true, n) && AllBlank(b)
    requires v != "" && AllValue(v) && !IsBlank(v[0]) && p.nread + |n| + |b| + |v| + 3 <= max
    ensures LeadsToLine(max, p, Tape(log, false), n + ":" + b + v + "\r\n", q,
                        Tape(log + EventsOf(Header(n, v)), false))
    ensures q == p.(nread := p.nread + |n| + |b| + |v| + 3, headerState := q.headerState, index := q.index,
                    usesTE := true, flags := p.flags.(chunked := p.flags.chunked || Says(true, v, TeMatchingChunked)))
  {
    hide AllValue, AllBlank, IsBlank, IsListName, Says, LeadsToLine;
    q := ListLine(max, true, p, log, n, b, v);
    assert Flag(q.flags, TeMatchingChunked) <==> Flag(p.flags, TeMatchingChunked) || Says(true, v, TeMatchingChunked);
  }

  /** A `Connection` line sets each of its flags exactly when the word for it, with at most spaces after it, is an
      element of its value that the machine sees. */
  lemma ConnectionExactly(max: nat, p: Parser, log: seq<Event>, n: string, b: string, v: string) returns (q: Parser)
    requires p.state.HeaderFieldStart? && IsListName(false, n) && AllBlank(b)
    requires v != "" && AllValue(v) && !IsBlank(v[0]) && p.nread + |n| + |b| + |v| + 3 <= max
    ensures LeadsToLine(max, p, Tape(log, false), n + ":" + b + v + "\r\n", q,
                        Tape(log + EventsOf(Header(n, v)), false))
    ensures q == p.(nread := p.nread + |n| + |b| + |v| + 3, headerState := q.headerState, index := q.index,
                    flags := p.flags.(keepAlive := p.flags.keepAlive || Says(false, v, ConnMatchingKeepAlive),
                                      close := p.flags.close || Says(false, v, ConnMatchingClose),
                                      connUpgrade := p.flags.connUpgrade || Says(false, v, ConnMatchingUpgrade)))
  {
    hide AllValue, AllBlank, IsBlank, IsListName, Says, LeadsToLine;
    q := ListLine(max, false, p, log, n, b, v);
    assert Flag(q.flags, ConnMatchingKeepAlive) <==>
      Flag(p.flags, ConnMatchingKeepAlive) || Says(false, v, ConnMatchingKeepAlive);
    assert Flag(q.flags, ConnMatchingClose) <==> Flag(p.flags, ConnMatchingClose) || Says(false, v, ConnMatchingClose);
    assert Flag(q.flags, ConnMatchingUpgrade) <==>
      Flag(p.flags, ConnMatchingUpgrade) || Says(false, v, ConnMatchingUpgrade);
  }
}
