/** What the header machine knows about the field name it has read. */
module HeaderNames {
  import opened Bytes
  import opened ParserTypes
  import opened ParserStep
  import opened ParserBatches

  /** The header state after the name `n` says which letters `n` has, in either case. */
  predicate FieldSays(hs: HeaderState, index: nat, n: string) {
    match hs
    case General => true
    case HC => FoldAll(n) == "c" && index == 0
    case HCO => FoldAll(n) == "co" && index == 1
    case HCON => FoldAll(n) == "con" && index == 2
    case MatchingConnection | MatchingProxyConnection | MatchingContentLength | MatchingTransferEncoding
       | MatchingUpgrade => |n| == index + 1 < |Wanted(hs)| && FoldAll(n) == Wanted(hs)[..index + 1]
    case Connection => FoldAll(n) == "connection" || FoldAll(n) == "proxy-connection"
    case ContentLength => FoldAll(n) == "content-length"
    case TransferEncoding => FoldAll(n) == "transfer-encoding"
    case Upgrade => FoldAll(n) == "upgrade"
    case _ => false
  }

  lemma FoldSnoc(n: string, c: char)
    ensures FoldAll(n + [c]) == FoldAll(n) + [Fold(c)]
  {
  }

  lemma FirstLetterSays(c: char)
    requires IsToken(c)
    ensures FieldSays(FirstFieldState(Token(c)), 0, [c])
  {
    assert FoldAll([c]) == [Fold(c)];
  }

  lemma MatchSays(hs: HeaderState, index: nat, n: string, c: char, hit: HeaderState)
    requires |n| == index + 1 < |Wanted(hs)| && FoldAll(n) == Wanted(hs)[..index + 1] && |Wanted(hs)| <= 17
    ensures
      var s := MatchLetter(hs, index, Fold(c), hit, General);
      (s == Scan(hit, index + 1) && FoldAll(n + [c]) == Wanted(hs))
      || (s == Scan(hs, index + 1) && index + 2 < |Wanted(hs)| && FoldAll(n + [c]) == Wanted(hs)[..index + 2])
      || s.headerState == General
  {
    hide Wanted, Fold;
    FoldSnoc(n, c);
    assert Bump(index) == index + 1;
    if Fold(c) == Wanted(hs)[index + 1] {
      assert Wanted(hs)[..index + 2] == Wanted(hs)[..index + 1] + [Fold(c)];
      assert Wanted(hs)[..|Wanted(hs)|] == Wanted(hs);
    }
  }

  lemma WantedIsShort(hs: HeaderState)
    ensures |Wanted(hs)| <= 17
  {
  }

  lemma MatchingSays(hs: HeaderState, index: nat, n: string, c: char)
    requires FieldSays(hs, index, n) && IsToken(c)
    requires hs.MatchingConnection? || hs.MatchingProxyConnection? || hs.MatchingContentLength?
             || hs.MatchingTransferEncoding? || hs.MatchingUpgrade?
    ensures
      var s := FieldScan(hs, index, Token(c));
      FieldSays(s.headerState, s.index, n + [c])
  {
    hide MatchLetter;
    WantedIsShort(hs);
    match hs
    case MatchingConnection => MatchSays(hs, index, n, c, Connection);
    case MatchingProxyConnection => MatchSays(hs, index, n, c, Connection);
    case MatchingContentLength => MatchSays(hs, index, n, c, ContentLength);
    case MatchingTransferEncoding => MatchSays(hs, index, n, c, TransferEncoding);
    case _ => MatchSays(hs, index, n, c, Upgrade);
  }

  lemma FieldSaysMore(hs: HeaderState, index: nat, n: string, c: char)
    requires FieldSays(hs, index, n) && IsToken(c)
    ensures
      var s := FieldScan(hs, index, Token(c));
      FieldSays(s.headerState, s.index, n + [c])
  {
    hide MatchLetter, IsToken;
    if hs.MatchingConnection? || hs.MatchingProxyConnection? || hs.MatchingContentLength?
       || hs.MatchingTransferEncoding? || hs.MatchingUpgrade? {
      MatchingSays(hs, index, n, c);
    } else {
      FoldSnoc(n, c);
    }
  }

  /** A name that is none of those that are looked for. */
  predicate Uninterpreted(n: string) {
    var f := FoldAll(n);
    f != "connection" && f != "proxy-connection" && f != "content-length" && f != "upgrade" && f != "transfer-encoding"
  }

  /** A name that the parser does not act on. `transfer-encoding` counts as soon as it is a prefix. */
  predicate Ignored(n: string) { Uninterpreted(n) && !("transfer-encoding" <= FoldAll(n)) }

  /** Reading the letters `n[i..]` of a name whose first `i` letters have been read. */
  lemma {:induction false} NameSays(p: Parser, n: string, i: nat)
    requires 1 <= i <= |n| && (forall k :: 0 <= k < |n| ==> IsToken(n[k])) && FieldSays(p.headerState, p.index, n[..i])
    ensures
      var q := FieldFold(p, n, i, |n|);
      FieldSays(q.headerState, q.index, n)
      && q == p.(headerState := q.headerState, index := q.index, usesTE := q.usesTE)
      && (!("transfer-encoding" <= FoldAll(n)) ==> q.usesTE == p.usesTE)
    decreases |n| - i
  {
    hide FieldScan, IsToken, Token, Fold;
    if i == |n| {
      assert n[..i] == n;
    } else {
      FieldSaysMore(p.headerState, p.index, n[..i], n[i]);
      assert n[..i] + [n[i]] == n[..i + 1];
      var s := FieldScan(p.headerState, p.index, Token(n[i]));
      if s.headerState.TransferEncoding? {
        assert FoldAll(n[..i + 1]) == FoldAll(n)[..i + 1];
      }
      NameSays(FieldLetter(p, n[i]), n, i + 1);
    }
  }

  // ----- The names that are looked for are recognised -----

  /** The state that a matcher of field names ends in. */
  function Hit(m: HeaderState): HeaderState {
    match m
    case MatchingConnection => Connection
    case MatchingProxyConnection => Connection
    case MatchingContentLength => ContentLength
    case MatchingTransferEncoding => TransferEncoding
    case MatchingUpgrade => Upgrade
    case _ => General
  }

  /** The state after the first `i` letters of the name that `m` looks for. */
  function Partly(m: HeaderState, i: nat): HeaderState {
    if (m.MatchingConnection? || m.MatchingContentLength?) && i <= 3 then
      if i == 1 then HC else if i == 2 then HCO else HCON
    else if i < |Wanted(m)| then m
    else Hit(m)
  }

  lemma FirstPart(m: HeaderState)
    requires Hit(m) != General
    ensures 4 < |Wanted(m)| <= 17 && FirstFieldState(Wanted(m)[0]) == Partly(m, 1)
  {
  }

  lemma PartlyMore(m: HeaderState, i: nat)
    requires Hit(m) != General && 1 <= i < |Wanted(m)|
    ensures FieldScan(Partly(m, i), i - 1, Wanted(m)[i]) == Scan(Partly(m, i + 1), i)
  {
    assert Bump(i - 1) == i;
  }

  /** A name that starts with the wanted letters, in either case, is followed up to the last of them. */
  lemma {:induction false} PartMatches(p: Parser, n: string, i: nat, m: HeaderState)
    requires Hit(m) != General && Wanted(m) <= FoldAll(n) && 1 <= i <= |Wanted(m)|
    requires (forall k :: 0 <= k < |n| ==> IsToken(n[k])) && p.headerState == Partly(m, i) && p.index == i - 1
    ensures
      var w := |Wanted(m)|;
      FieldFold(p, n, i, w)
      == p.(headerState := Hit(m), index := w - 1, usesTE := p.usesTE || (i < w && m.MatchingTransferEncoding?))
    decreases |Wanted(m)| - i
  {
    hide FieldScan, IsToken, Fold, Wanted;
    FirstPart(m);
    if i < |Wanted(m)| {
      PartlyMore(m, i);
      assert Token(n[i]) == FoldAll(n)[i] == Wanted(m)[i];
      PartMatches(FieldLetter(p, n[i]), n, i + 1, m);
    }
  }

  lemma {:induction false} FoldFurther(p: Parser, n: string, i: nat, j: nat)
    requires i <= j <= |n| && forall k :: 0 <= k < |n| ==> IsToken(n[k])
    ensures FieldFold(p, n, i, |n|) == FieldFold(FieldFold(p, n, i, j), n, j, |n|)
    decreases j - i
  {
    hide FieldLetter, IsToken;
    if i < j { FoldFurther(FieldLetter(p, n[i]), n, i + 1, j); }
  }

  lemma {:induction false} EncodingStays(p: Parser, n: string, i: nat)
    requires i <= |n| && (forall k :: 0 <= k < |n| ==> IsToken(n[k])) && p.usesTE
    ensures FieldFold(p, n, i, |n|).usesTE
    decreases |n| - i
  {
    hide FieldScan, IsToken;
    if i < |n| { EncodingStays(FieldLetter(p, n[i]), n, i + 1); }
  }

  /** The record after the first letter of a name. */
  function NameBegun(p: Parser, ch: char): Parser
    requires IsToken(ch)
  {
    p.(index := 0, state := HeaderField, headerState := FirstFieldState(Token(ch)))
  }

  lemma NameMatches(p: Parser, n: string, m: HeaderState)
    requires Hit(m) != General && Wanted(m) <= FoldAll(n) && forall k :: 0 <= k < |n| ==> IsToken(n[k])
    ensures
      var q := FieldFold(NameBegun(p, n[0]), n, 1, |n|);
      && (m.MatchingTransferEncoding? ==> q.usesTE)
      && (|n| == |Wanted(m)| ==> q.headerState == Hit(m) && q.index == |n| - 1)
  {
    hide FieldFold, IsToken, Fold, Wanted, FirstFieldState;
    FirstPart(m);
    assert Token(n[0]) == FoldAll(n)[0] == Wanted(m)[0];
    var f, w := NameBegun(p, n[0]), |Wanted(m)|;
    PartMatches(f, n, 1, m);
    FoldFurther(f, n, 1, w);
    if m.MatchingTransferEncoding? { EncodingStays(FieldFold(f, n, 1, w), n, w); }
    FoldOver(FieldFold(f, n, 1, w), n);
  }

  lemma FoldOver(p: Parser, n: string)
    requires forall k :: 0 <= k < |n| ==> IsToken(n[k])
    ensures FieldFold(p, n, |n|, |n|) == p
  {
  }

  lemma WantedNames()
    ensures Wanted(MatchingConnection) == "connection" && Wanted(MatchingProxyConnection) == "proxy-connection"
    ensures Wanted(MatchingContentLength) == "content-length" && Wanted(MatchingUpgrade) == "upgrade"
    ensures Wanted(MatchingTransferEncoding) == "transfer-encoding"
  {
  }

  lemma StateSays(hs: HeaderState, index: nat, n: string)
    requires FieldSays(hs, index, n)
    ensures hs.Connection? ==> FoldAll(n) == Wanted(MatchingConnection) || FoldAll(n) == Wanted(MatchingProxyConnection)
    ensures hs.ContentLength? ==> FoldAll(n) == Wanted(MatchingContentLength)
    ensures hs.TransferEncoding? ==> FoldAll(n) == Wanted(MatchingTransferEncoding)
    ensures hs.Upgrade? ==> FoldAll(n) == Wanted(MatchingUpgrade)
  {
    hide FoldAll;
  }

  /** A name that is looked for is recognised when it stands there in full. */
  lemma WholeName(p: Parser, n: string, m: HeaderState)
    requires n != "" && Hit(m) != General && forall k :: 0 <= k < |n| ==> IsToken(n[k])
    ensures FoldAll(n) == Wanted(m) ==> FieldFold(NameBegun(p, n[0]), n, 1, |n|).headerState == Hit(m)
  {
    hide FieldFold, IsToken, Fold, Wanted, FirstFieldState;
    FirstPart(m);
    if FoldAll(n) == Wanted(m) { NameMatches(p, n, m); }
  }

  lemma NameFrame(p: Parser, n: string)
    requires n != "" && forall k :: 0 <= k < |n| ==> IsToken(n[k])
    ensures
      var q := FieldFold(NameBegun(p, n[0]), n, 1, |n|);
      && FieldSays(q.headerState, q.index, n)
      && q == p.(state := HeaderField, headerState := q.headerState, index := q.index, usesTE := q.usesTE)
  {
    hide FieldFold, IsToken, Token, FirstFieldState, FieldSays, FoldAll, Wanted;
    FirstLetterSays(n[0]);
    assert n[..1] == [n[0]];
    NameSays(NameBegun(p, n[0]), n, 1);
  }

  lemma EncodingOnly(p: Parser, n: string)
    requires n != "" && forall k :: 0 <= k < |n| ==> IsToken(n[k])
    ensures !(Wanted(MatchingTransferEncoding) <= FoldAll(n)) ==>
      FieldFold(NameBegun(p, n[0]), n, 1, |n|).usesTE == p.usesTE
  {
    hide FieldFold, IsToken, Token, FirstFieldState, FieldSays, FoldAll, Wanted;
    WantedNames();
    FirstLetterSays(n[0]);
    assert n[..1] == [n[0]];
    NameSays(NameBegun(p, n[0]), n, 1);
  }

  lemma EncodingExactly(p: Parser, n: string)
    requires n != "" && forall k :: 0 <= k < |n| ==> IsToken(n[k])
    ensures FieldFold(NameBegun(p, n[0]), n, 1, |n|).usesTE <==>
      p.usesTE || Wanted(MatchingTransferEncoding) <= FoldAll(n)
  {
    hide FieldFold, IsToken, Token, FirstFieldState, FieldSays, FoldAll, Wanted;
    EncodingOnly(p, n);
    if Wanted(MatchingTransferEncoding) <= FoldAll(n) { NameMatches(p, n, MatchingTransferEncoding); }
    if p.usesTE { EncodingStays(NameBegun(p, n[0]), n, 1); }
  }

  lemma NameStates(p: Parser, n: string)
    requires n != "" && forall k :: 0 <= k < |n| ==> IsToken(n[k])
    ensures
      var q, f := FieldFold(NameBegun(p, n[0]), n, 1, |n|), FoldAll(n);
      && (q.headerState.Connection? <==> f == Wanted(MatchingConnection) || f == Wanted(MatchingProxyConnection))
      && (q.headerState.ContentLength? <==> f == Wanted(MatchingContentLength))
      && (q.headerState.TransferEncoding? <==> f == Wanted(MatchingTransferEncoding))
      && (q.headerState.Upgrade? <==> f == Wanted(MatchingUpgrade))
  {
    hide FieldFold, IsToken, FieldSays, FoldAll, Wanted, NameBegun;
    NameFrame(p, n);
    var q := FieldFold(NameBegun(p, n[0]), n, 1, |n|);
    StateSays(q.headerState, q.index, n);
    WholeName(p, n, MatchingConnection);
    WholeName(p, n, MatchingProxyConnection);
    WholeName(p, n, MatchingContentLength);
    WholeName(p, n, MatchingTransferEncoding);
    WholeName(p, n, MatchingUpgrade);
  }

  /** What a field name makes of the record: each name is recognised exactly when it stands there in full, in either
      case, but `uses_transfer_encoding` is set exactly when the name starts with `transfer-encoding`. */
  lemma NameExactly(p: Parser, n: string)
    requires n != "" && forall k :: 0 <= k < |n| ==> IsToken(n[k])
    ensures
      var q, f := FieldFold(NameBegun(p, n[0]), n, 1, |n|), FoldAll(n);
      && (q.headerState.Connection? <==> f == "connection" || f == "proxy-connection")
      && (q.headerState.ContentLength? <==> f == "content-length")
      && (q.headerState.TransferEncoding? <==> f == "transfer-encoding")
      && (q.headerState.Upgrade? <==> f == "upgrade")
      && (q.usesTE <==> p.usesTE || "transfer-encoding" <= f)
      && q == p.(state := HeaderField, headerState := q.headerState, index := q.index, usesTE := q.usesTE)
  {
    hide FieldFold, IsToken, Token, Fold, FirstFieldState, Wanted, FoldAll;
    NameFrame(p, n);
    NameStates(p, n);
    EncodingExactly(p, n);
    WantedNames();
  }
}
