/** The method matcher guesses a method from the first letter and revises the guess on the way. It accepts
    exactly the 34 method names. */
module MethodMatcher {
  import opened Bytes
  import opened ParserTypes
  import opened ParserStep
  import opened ParserInvariant
  import opened ParserRun
  import opened ParserSegments

  /** The guess kept or revised at letter `ch`. */
  function Revise(g: Method, index: nat, ch: char): Option<Method> {
    if index < |MethodString(g)| && ch == MethodString(g)[index] then Some(g) else SecondGuess(g, index, ch)
  }

  /** The guess held after `i` letters of the name of `m`. */
  function GuessAt(m: Method, i: nat): Method {
    match m
    case PUT | PATCH | PROPFIND => if i < 2 then POST else m
    case PROPPATCH => if i < 2 then POST else if i < 5 then PROPFIND else m
    case PURGE => if i < 2 then POST else if i < 3 then PUT else m
    case CHECKOUT => if i < 2 then CONNECT else m
    case COPY => if i < 3 then CONNECT else m
    case MOVE | MERGE | MSEARCH => if i < 2 then MKCOL else m
    case MKACTIVITY => if i < 3 then MKCOL else m
    case MKCALENDAR => if i < 4 then MKCOL else m
    case SEARCH | SOURCE => if i < 2 then SUBSCRIBE else m
    case REBIND => if i < 3 then REPORT else m
    case LINK => if i < 2 then LOCK else m
    case UNSUBSCRIBE | UNBIND => if i < 3 then UNLOCK else m
    case UNLINK => if i < 4 then UNLOCK else m
    case _ => m
  }

  predicate GuessHolds(m: Method, i: nat)
    requires i < |MethodString(m)|
  {
    Revise(GuessAt(m, i), i, MethodString(m)[i]) == Some(GuessAt(m, i + 1))
  }

  lemma FirstLetter(m: Method)
    ensures MethodString(m) != "" && FirstGuess(MethodString(m)[0]) == Some(GuessAt(m, 1))
  {
  }

  lemma GuessP(m: Method, i: nat)
    requires 1 <= i < |MethodString(m)| && (m.PUT? || m.PATCH? || m.PURGE?)
    ensures GuessHolds(m, i)
  {
  }

  lemma GuessPROP(m: Method, i: nat)
    requires 1 <= i < |MethodString(m)| && (m.PROPFIND? || m.PROPPATCH?)
    ensures GuessHolds(m, i)
  {
  }

  lemma GuessC(m: Method, i: nat)
    requires 1 <= i < |MethodString(m)| && (m.CHECKOUT? || m.COPY?)
    ensures GuessHolds(m, i)
  {
  }

  lemma GuessM(m: Method, i: nat)
    requires 1 <= i < |MethodString(m)| && (m.MOVE? || m.MERGE? || m.MSEARCH?)
    ensures GuessHolds(m, i)
  {
  }

  lemma GuessMK(m: Method, i: nat)
    requires 1 <= i < |MethodString(m)| && (m.MKACTIVITY? || m.MKCALENDAR?)
    ensures GuessHolds(m, i)
  {
  }

  lemma GuessRSL(m: Method, i: nat)
    requires 1 <= i < |MethodString(m)| && (m.SEARCH? || m.SOURCE? || m.REBIND? || m.LINK?)
    ensures GuessHolds(m, i)
  {
  }

  lemma GuessU(m: Method, i: nat)
    requires 1 <= i < |MethodString(m)| && (m.UNSUBSCRIBE? || m.UNBIND? || m.UNLINK?)
    ensures GuessHolds(m, i)
  {
  }

  predicate Revised(m: Method) {
    m.PUT? || m.PATCH? || m.PURGE? || m.PROPFIND? || m.PROPPATCH? || m.CHECKOUT? || m.COPY? || m.MOVE? || m.MERGE?
    || m.MSEARCH? || m.MKACTIVITY? || m.MKCALENDAR? || m.SEARCH? || m.SOURCE? || m.REBIND? || m.LINK?
    || m.UNSUBSCRIBE? || m.UNBIND? || m.UNLINK?
  }

  lemma GuessFirst(m: Method, i: nat)
    requires !Revised(m)
    ensures GuessAt(m, i) == m
  {
  }

  /** Along the letters of a name the matcher holds the guess that leads to it. */
  lemma GuessLetter(m: Method, i: nat)
    requires 1 <= i < |MethodString(m)|
    ensures GuessHolds(m, i)
  {
    hide SecondGuess, MethodString, GuessAt;
    if !Revised(m) {
      GuessFirst(m, i);
      GuessFirst(m, i + 1);
    } else if m.PUT? || m.PATCH? || m.PURGE? {
      GuessP(m, i);
    } else if m.PROPFIND? || m.PROPPATCH? {
      GuessPROP(m, i);
    } else if m.CHECKOUT? || m.COPY? {
      GuessC(m, i);
    } else if m.MOVE? || m.MERGE? || m.MSEARCH? {
      GuessM(m, i);
    } else if m.MKACTIVITY? || m.MKCALENDAR? {
      GuessMK(m, i);
    } else if m.SEARCH? || m.SOURCE? || m.REBIND? || m.LINK? {
      GuessRSL(m, i);
    } else {
      GuessU(m, i);
    }
  }

  lemma GuessLast(m: Method)
    ensures GuessAt(m, |MethodString(m)|) == m
  {
  }

  // ----- The matcher inside the parser -----

  lemma MatchFirst(max: nat, p: Parser, ch: char)
    requires p.state.StartReq? && p.nread < max && ch != CR && ch != LF
    ensures Step(max, p, ch) ==
      match FirstGuess(ch)
      case None => Fail(InvalidMethod, [])
      case Some(m) =>
        Next(Cleared(p).(nread := p.nread + 1, verb := m, index := 1, state := ReqMethod), [Notify(MessageBegin)])
  {
    hide Step, FirstGuess, UrlByte, EndOfUrl, ReadMethod;
    RequestStepIs(max, p, ch);
  }

  lemma ReadLetter(max: nat, p: Parser, ch: char)
    requires p.state.ReqMethod? && 1 <= p.index <= |MethodString(p.verb)| && p.nread < max
    ensures Step(max, p, ch) ==
      if ch == '\0' then Fail(InvalidMethod, [])
      else if ch == ' ' && p.index == |MethodString(p.verb)| then
        Next(p.(nread := p.nread + 1, index := p.index + 1, state := ReqSpacesBeforeUrl), [])
      else match Revise(p.verb, p.index, ch)
        case None => Fail(InvalidMethod, [])
        case Some(m) => Next(p.(nread := p.nread + 1, index := p.index + 1, verb := m), [])
  {
    hide Step, SecondGuess, MethodString, UrlByte, EndOfUrl, StartRequest;
    MethodsAreShort(p.verb);
    RequestStepIs(max, p, ch);
  }

  /** The record while a method is being read: `i` letters seen, guess `g`. */
  function Reading(p: Parser, g: Method, i: nat): Parser {
    Cleared(p).(nread := p.nread + i, verb := g, index := i, state := ReqMethod)
  }

  lemma ReviseFits(g: Method, index: nat, ch: char)
    requires Revise(g, index, ch).Some? && index <= |MethodString(g)|
    ensures
      var n := MethodString(Revise(g, index, ch).value);
      index < |n| && n[index] == ch && n[..index] == MethodString(g)[..index]
  {
    hide SecondGuess, MethodString;
    SecondGuessFits(g, index, ch);
  }

  /** While the method is being read, the bytes read are the first letters of the current guess. */
  lemma {:induction false} ReadingIsPrefix(max: nat, p: Parser, log: seq<Event>, w: string)
    requires p.state.StartReq? && w != "" && w[0] != CR && w[0] != LF && ' ' !in w && p.nread + |w| <= max
    ensures
      match RunFrom(max, p, Tape(log, false), w, 0)
      case Running(q, u) =>
        q == Reading(p, q.verb, |w|) && u == Tape(log + [MessageBegin], false)
        && |w| <= |MethodString(q.verb)| && w == MethodString(q.verb)[..|w|]
      case Exited(_, _, _) => false
      case Failed(_, e, _) => e == InvalidMethod
    decreases |w|
  {
    hide Step, RunFrom, MethodString, SecondGuess, FirstGuess, Revise;
    var t := Tape(log, false);
    var init, last := w[..|w| - 1], w[|w| - 1];
    InitLast(w);
    if |w| == 1 {
      MatchFirst(max, p, last);
      match FirstGuess(last)
      case None => FailsAt(max, p, t, last, InvalidMethod);
      case Some(m) =>
        LeadsNotify(max, p, t, last, Reading(p, m, 1), MessageBegin);
        FirstGuessFits(last);
    } else {
      ReadingIsPrefix(max, p, log, init);
      match RunFrom(max, p, t, init, 0)
      case Failed(_, _, _) => FailsInside(max, p, t, init, [last]);
      case Exited(_, _, _) =>
      case Running(q, u) =>
        ReadLetter(max, q, last);
        Follow(max, p, t, init, q, u, [last]);
        if last == '\0' || Revise(q.verb, q.index, last).None? {
          FailsAt(max, q, u, last, InvalidMethod);
        } else {
          var m := Revise(q.verb, q.index, last).value;
          LeadsQuietly(max, q, u, last, Reading(p, m, |w|));
          ReviseFits(q.verb, q.index, last);
          assert w == MethodString(m)[..|w|];
        }
    }
  }

  lemma FirstGuessFits(ch: char)
    ensures FirstGuess(ch).Some? ==>
      var n := MethodString(FirstGuess(ch).value); n != "" && n[0] == ch && [ch] == n[..1]
  {
  }

  /** Every prefix of a method name is read. */
  lemma {:induction false} NameIsRead(max: nat, p: Parser, log: seq<Event>, m: Method, i: nat)
    requires p.state.StartReq? && 1 <= i <= |MethodString(m)| && p.nread + i <= max
    ensures Leads(max, p, Tape(log, false), MethodString(m)[..i], Reading(p, GuessAt(m, i), i),
                  Tape(log + [MessageBegin], false))
    decreases i
  {
    hide Step, RunFrom, MethodString, FirstGuess, Revise, GuessAt;
    var t, u := Tape(log, false), Tape(log + [MessageBegin], false);
    var w := MethodString(m)[..i];
    LettersAreTokens(m, i - 1);
    if i == 1 {
      FirstLetter(m);
      MatchFirst(max, p, w[0]);
      LeadsNotify(max, p, t, w[0], Reading(p, GuessAt(m, 1), 1), MessageBegin);
      assert w == [w[0]];
    } else {
      var init, last := MethodString(m)[..i - 1], MethodString(m)[i - 1];
      NameIsRead(max, p, log, m, i - 1);
      GuessLetter(m, i - 1);
      var q := Reading(p, GuessAt(m, i - 1), i - 1);
      GuessFitsName(m, i - 1);
      ReadLetter(max, q, last);
      LeadsQuietly(max, q, u, last, Reading(p, GuessAt(m, i), i));
      Join(max, p, t, init, q, u, [last], Reading(p, GuessAt(m, i), i), u);
      assert w == init + [last];
    }
  }

  predicate IsLetter(ch: char) { ch != ' ' && ch != '\0' && ch != CR && ch != LF }

  lemma ShortNames(m: Method, i: nat)
    requires i < |MethodString(m)| <= 4
    ensures IsLetter(MethodString(m)[i])
  {
  }

  lemma MiddleNames(m: Method, i: nat)
    requires i < |MethodString(m)| && 5 <= |MethodString(m)| <= 6
    ensures IsLetter(MethodString(m)[i])
  {
  }

  lemma LongNames(m: Method, i: nat)
    requires i < |MethodString(m)| && 7 <= |MethodString(m)|
    ensures IsLetter(MethodString(m)[i])
  {
  }

  lemma LettersAreTokens(m: Method, i: nat)
    requires i < |MethodString(m)|
    ensures IsLetter(MethodString(m)[i])
  {
    hide MethodString;
    if |MethodString(m)| <= 4 {
      ShortNames(m, i);
    } else if |MethodString(m)| <= 6 {
      MiddleNames(m, i);
    } else {
      LongNames(m, i);
    }
  }

  lemma GuessFitsName(m: Method, i: nat)
    requires 1 <= i <= |MethodString(m)|
    ensures i <= |MethodString(GuessAt(m, i))|
  {
  }

  /** The request method: over all byte strings without a space, the text followed by a space is read as a method
      exactly when it is one of the 34 names, and the method recorded is the one with that name. */
  lemma MethodExactness(max: nat, p: Parser, log: seq<Event>, w: string)
    requires p.state.StartReq? && ' ' !in w && p.nread + |w| + 1 <= max
    requires w != "" ==> w[0] != CR && w[0] != LF
    ensures
      var r := RunFrom(max, p, Tape(log, false), w + " ", 0);
      (r.Running? && r.parser.state.ReqSpacesBeforeUrl? <==> exists m :: w == MethodString(m))
      && (r.Running? ==> w == MethodString(r.parser.verb) && r.tape == Tape(log + [MessageBegin], false))
      && !r.Exited?
  {
    hide Step, RunFrom, MethodString, FirstGuess, Revise, GuessAt;
    var t := Tape(log, false);
    if w == "" {
      assert w + " " == [' '];
      MatchFirst(max, p, ' ');
      SpaceIsNoMethod();
      FailsAt(max, p, t, ' ', InvalidMethod);
      forall m ensures w != MethodString(m) { MethodsAreShort(m); }
    } else {
      ReadingIsPrefix(max, p, log, w);
      match RunFrom(max, p, t, w, 0)
      case Exited(_, _, _) =>
      case Failed(_, _, _) =>
        FailsInside(max, p, t, w, " ");
        forall m ensures w != MethodString(m) {
          if w == MethodString(m) {
            assert MethodString(m)[..|w|] == w;
            NameIsRead(max, p, log, m, |w|);
          }
        }
      case Running(q, u) =>
        ReadLetter(max, q, ' ');
        Follow(max, p, t, w, q, u, [' ']);
        if q.index == |MethodString(q.verb)| {
          assert w == MethodString(q.verb);
          LeadsQuietly(max, q, u, ' ', q.(nread := q.nread + 1, index := q.index + 1, state := ReqSpacesBeforeUrl));
        } else {
          SpaceFitsNowhere(q.verb, q.index);
          FailsAt(max, q, u, ' ', InvalidMethod);
          forall m ensures w != MethodString(m) {
            if w == MethodString(m) {
              assert MethodString(m)[..|w|] == w;
              GuessLast(m);
              NameIsRead(max, p, log, m, |w|);
            }
          }
        }
    }
  }

  lemma SpaceIsNoMethod()
    ensures FirstGuess(' ').None?
  {
  }

  lemma SpaceFitsNowhere(g: Method, index: nat)
    requires index < |MethodString(g)|
    ensures Revise(g, index, ' ').None?
  {
    hide MethodString;
    LettersAreTokens(g, index);
  }
}
