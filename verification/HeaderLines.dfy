/** Runs of the parser over header lines, from the start of one line to the start of the next. */
module HeaderLineRuns {
  import opened Bytes
  import opened ParserTypes
  import opened ParserStep
  import opened ParserRun
  import opened ParserBatches
  import opened ParserProgress
  import opened ParserSegments
  import opened Lengths
  import opened HeaderNames
  import opened HttpRequests

  // ----- Line starts -----

  /** After a line the parser does not know yet whether the next one folds it. */
  predicate AtLine(p: Parser) {
    p.state.HeaderFieldStart? || p.state.HeaderValueLws?
      || (p.state.HeaderValueDiscardLws? && !p.headerState.ContentLength?)
  }

  /** The record once it is known that the line was not folded. */
  function Settled(p: Parser): Parser {
    if p.state.HeaderFieldStart? then p else p.(flags := Commit(p.flags, p.headerState), state := HeaderFieldStart)
  }

  function SettledTape(p: Parser, t: Tape): Tape {
    if p.state.HeaderValueDiscardLws? then Tape(t.log + [Data(HeaderValueData, "")], false) else t
  }

  lemma EmptyValueApplied(t: Tape, acts: seq<Action>, ch: char)
    requires !t.open
    ensures ApplyAll(t, [Mark(HeaderValueData), Flush(HeaderValueData)] + acts, ch)
      == ApplyAll(Tape(t.log + [Data(HeaderValueData, "")], false), acts, ch)
  {
    var all := [Mark(HeaderValueData), Flush(HeaderValueData)] + acts;
    assert all[1..] == [Flush(HeaderValueData)] + acts && ([Flush(HeaderValueData)] + acts)[1..] == acts;
    var u := Apply(t, all[0], ch);
    assert ApplyAll(t, all, ch) == ApplyAll(u, all[1..], ch)
      == ApplyAll(Apply(u, Flush(HeaderValueData), ch), acts, ch);
  }

  lemma LineStep(max: nat, p: Parser, ch: char)
    requires AtLine(p) && !IsBlank(ch) && p.nread < max
    ensures Step(max, p, ch) ==
      if p.state.HeaderValueDiscardLws? then
        Prefix([Mark(HeaderValueData), Flush(HeaderValueData)], Step(max, Settled(p), ch))
      else Step(max, Settled(p), ch)
  {
    hide Step, FieldStart, Commit, FieldByte, ValueStart, ValueByte, EndOfHeaders;
    HeaderStepIs(max, p, ch);
    HeaderStepIs(max, Settled(p), ch);
  }

  /** A line that starts with no blank reads the same from the settled record. */
  lemma LineFollows(max: nat, p: Parser, t: Tape, w: string)
    requires AtLine(p) && !t.open && w != "" && !IsBlank(w[0]) && p.nread < max
    ensures RunFrom(max, p, t, w, 0) == RunFrom(max, Settled(p), SettledTape(p, t), w, 0)
  {
    hide Step, ApplyAll, Settled, IsBlank;
    LineStep(max, p, w[0]);
    var o := Step(max, Settled(p), w[0]);
    EmptyValueApplied(t, o.actions, w[0]);
  }

  predicate LeadsToLine(max: nat, p: Parser, t: Tape, w: string, q: Parser, u: Tape) {
    var r := RunFrom(max, p, t, w, 0);
    r.Running? && AtLine(r.parser) && !r.tape.open && Settled(r.parser) == q && SettledTape(r.parser, r.tape) == u
  }

  lemma NoLine(max: nat, p: Parser, t: Tape)
    requires p.state.HeaderFieldStart? && !t.open
    ensures LeadsToLine(max, p, t, "", p, t)
  {
  }

  lemma LineDone(max: nat, p: Parser, t: Tape, w: string, q: Parser, u: Tape)
    requires Leads(max, p, t, w, q, u) && AtLine(q) && !u.open
    ensures LeadsToLine(max, p, t, w, Settled(q), SettledTape(q, u))
  {
  }

  lemma FollowLine(max: nat, p: Parser, t: Tape, a: string, q: Parser, u: Tape, b: string)
    requires LeadsToLine(max, p, t, a, q, u) && b != "" && !IsBlank(b[0]) && q.nread < max
    ensures RunFrom(max, p, t, a + b, 0) == Shift(|a|, RunFrom(max, q, u, b, 0))
  {
    hide RunFrom, IsBlank, AtLine, Commit, SettledTape;
    var r := RunFrom(max, p, t, a, 0);
    Follow(max, p, t, a, r.parser, r.tape, b);
    LineFollows(max, r.parser, r.tape, b);
  }

  /** A line that is read had room for its first byte. */
  lemma RoomForOne(max: nat, p: Parser, t: Tape, w: string)
    requires p.state.HeaderFieldStart? && w != "" && RunFrom(max, p, t, w, 0).Running?
    ensures p.nread < max
  {
    hide FieldStart, ApplyAll;
    HeaderStepIs(max, p, w[0]);
  }

  lemma JoinLines(max: nat, p: Parser, t: Tape, a: string, q: Parser, u: Tape, b: string, r: Parser, v: Tape)
    requires LeadsToLine(max, p, t, a, q, u) && LeadsToLine(max, q, u, b, r, v) && (b == "" || !IsBlank(b[0]))
    requires q.state.HeaderFieldStart?
    ensures LeadsToLine(max, p, t, a + b, r, v)
  {
    hide RunFrom, IsBlank;
    if b == "" {
      assert a + b == a;
      RunsOut(max, q, u, b);
    } else {
      RoomForOne(max, q, u, b);
      FollowLine(max, p, t, a, q, u, b);
    }
  }

  // ----- A field name -----

  predicate AllTokens(n: string) { forall k :: 0 <= k < |n| ==> IsToken(n[k]) }

  function NameRead(p: Parser, n: string): Parser
    requires n != "" && AllTokens(n)
  {
    FieldFold(NameBegun(p, n[0]), n, 1, |n|).(nread := p.nread + |n| + 1, state := HeaderValueDiscardWs)
  }

  /** A name is recognised exactly when it stands there in full; `uses_transfer_encoding` goes by its first letters. */
  lemma NameReadExactly(p: Parser, n: string)
    requires n != "" && AllTokens(n)
    ensures
      var q, f := NameRead(p, n), FoldAll(n);
      && (q.headerState.Connection? <==> f == "connection" || f == "proxy-connection")
      && (q.headerState.ContentLength? <==> f == "content-length")
      && (q.headerState.TransferEncoding? <==> f == "transfer-encoding")
      && (q.headerState.Upgrade? <==> f == "upgrade")
      && (q.usesTE <==> p.usesTE || "transfer-encoding" <= f)
      && q == p.(nread := p.nread + |n| + 1, state := HeaderValueDiscardWs,
                 headerState := q.headerState, index := q.index, usesTE := q.usesTE)
  {
    hide FieldFold, IsToken, FoldAll, NameBegun;
    NameExactly(p, n);
  }

  lemma NameFirst(max: nat, p: Parser, ch: char)
    requires p.state.HeaderFieldStart? && IsToken(ch) && p.nread < max
    ensures Step(max, p, ch) ==
      Next(p.(nread := p.nread + 1, index := 0, state := HeaderField, headerState := FirstFieldState(Token(ch))),
           [Mark(HeaderFieldData), Take(HeaderFieldData)])
  {
    hide Step, FirstFieldState, Token, FieldByte, ValueStart, ValueByte, EndOfHeaders, AfterEmptyLine, AfterValueLine;
    HeaderStepIs(max, p, ch);
  }

  lemma MoreTaken(log: seq<Event>, k: Kind, s: string)
    requires s != ""
    ensures TakeAll(Tape(log + [Data(k, [s[0]])], true), s[1..|s|]) == Tape(log + [Data(k, s)], true)
  {
    assert (log + [Data(k, [s[0]])])[..|log|] == log;
    assert [s[0]] + s[1..|s|] == s;
  }

  lemma NameLeads(max: nat, p: Parser, log: seq<Event>, n: string)
    requires p.state.HeaderFieldStart? && n != "" && AllTokens(n) && p.nread + |n| + 1 <= max
    ensures Leads(max, p, Tape(log, false), n + ":", NameRead(p, n), Tape(log + [Data(HeaderFieldData, n)], false))
  {
    hide Step, FieldFold, IsToken, Token, FirstFieldState, ApplyAll, TakeAll;
    var t, u := Tape(log, false), Tape(log + [Data(HeaderFieldData, [n[0]])], true);
    var f := p.(index := 0, state := HeaderField, headerState := FirstFieldState(Token(n[0])));
    var g := f.(nread := p.nread + 1);
    var h := FieldFold(f, n, 1, |n|).(nread := p.nread + |n|);
    var v := Tape(log + [Data(HeaderFieldData, n)], true);
    NameFirst(max, p, n[0]);
    TakeTape(log, HeaderFieldData, "", n[0]);
    assert RunFrom(max, p, t, n, 0) == RunFrom(max, g, u, n, 1);
    FieldCommutes(f, p.nread + 1, n, 1, |n|);
    FieldRun(max, g, u, n, 1, |n|, Batch(0, f, u));
    MoreTaken(log, HeaderFieldData, n);
    RunsOut(max, h, v, n);
    ColonLeads(max, h, v);
    Join(max, p, t, n, h, v, ":", NameRead(p, n), Tape(v.log, false));
  }

  lemma ColonLeads(max: nat, p: Parser, t: Tape)
    requires p.state.HeaderField? && p.nread < max
    ensures Leads(max, p, t, ":", p.(nread := p.nread + 1, state := HeaderValueDiscardWs), Tape(t.log, false))
  {
    assert !IsToken(':');
    hide Step, IsToken, ApplyAll, RunFrom;
    FieldEnd(max, p, ':');
    ApplyFlush(t, HeaderFieldData, ':');
    LeadsByte(max, p, t, ':', p.(nread := p.nread + 1, state := HeaderValueDiscardWs), [Flush(HeaderFieldData)]);
    assert [':'] == ":";
  }

  // ----- A value -----

  predicate AllValue(v: string) { forall k :: 0 <= k < |v| ==> ValueChar(v[k]) }

  /** The record after the first byte of a value that is no length. */
  function ValueBegun(p: Parser, ch: char): Parser {
    p.(state := HeaderValue, index := 0,
       flags := if p.headerState.Upgrade? then p.flags.(upgrade := true) else p.flags,
       headerState := FirstValueState(p.headerState, Lower(ch)))
  }

  lemma ValueFirst(max: nat, p: Parser, ch: char)
    requires p.state.HeaderValueDiscardWs? && !p.headerState.ContentLength? && p.nread < max
    requires ch != CR && ch != LF && !IsBlank(ch)
    ensures Step(max, p, ch) ==
      Next(ValueBegun(p, ch).(nread := p.nread + 1), [Mark(HeaderValueData), Take(HeaderValueData)])
  {
    hide Step, FirstValueState, Lower, FieldByte, FieldStart, ValueByte, EndOfHeaders, AfterEmptyLine, AfterValueLine;
    HeaderStepIs(max, p, ch);
  }

  lemma ValueLeads(max: nat, p: Parser, log: seq<Event>, v: string, c: Parser)
    requires p.state.HeaderValueDiscardWs? && !p.headerState.ContentLength? && p.nread + |v| <= max
    requires v != "" && v[0] != CR && v[0] != LF && !IsBlank(v[0])
    requires ValueFold(ValueBegun(p, v[0]), v, 1, |v|) == Some(c)
    ensures Leads(max, p, Tape(log, false), v, c.(nread := p.nread + |v|), Tape(log + [Data(HeaderValueData, v)], true))
  {
    hide RunFrom, ValueFold, IsBlank, ValueBegun, TakeAll;
    var t, u := Tape(log, false), Tape(log + [Data(HeaderValueData, [v[0]])], true);
    var f := ValueBegun(p, v[0]);
    var g := f.(nread := p.nread + 1);
    BegunIsValue(p, v[0]);
    ValueFirstLeads(max, p, log, v, g);
    FoldRecounted(f, p.nread + 1, v, c);
    ValueRestLeads(max, g, log, v, c.(nread := p.nread + 1));
  }

  lemma ValueRestLeads(max: nat, g: Parser, log: seq<Event>, v: string, c: Parser)
    requires v != "" && g.state.HeaderValue? && g.nread + |v| - 1 <= max && ValueFold(g, v, 1, |v|) == Some(c)
    ensures RunFrom(max, g, Tape(log + [Data(HeaderValueData, [v[0]])], true), v, 1)
      == Running(c.(nread := g.nread + |v| - 1), Tape(log + [Data(HeaderValueData, v)], true))
  {
    hide RunFrom, ValueFold, TakeAll;
    var u := Tape(log + [Data(HeaderValueData, [v[0]])], true);
    ValueRun(max, g, u, v, 1, |v|, Batch(0, g, u));
    MoreTaken(log, HeaderValueData, v);
    RunsOut(max, c.(nread := g.nread + |v| - 1), Tape(log + [Data(HeaderValueData, v)], true), v);
  }

  lemma FoldRecounted(f: Parser, n: nat, v: string, c: Parser)
    requires v != "" && ValueFold(f, v, 1, |v|) == Some(c)
    ensures ValueFold(f.(nread := n), v, 1, |v|) == Some(c.(nread := n))
  {
    hide ValueFold;
    ValueCommutes(f, n, v, 1, |v|);
  }

  lemma ValueFirstLeads(max: nat, p: Parser, log: seq<Event>, v: string, g: Parser)
    requires p.state.HeaderValueDiscardWs? && !p.headerState.ContentLength? && p.nread < max
    requires v != "" && v[0] != CR && v[0] != LF && !IsBlank(v[0]) && g == ValueBegun(p, v[0]).(nread := p.nread + 1)
    ensures RunFrom(max, p, Tape(log, false), v, 0)
      == RunFrom(max, g, Tape(log + [Data(HeaderValueData, [v[0]])], true), v, 1)
  {
    hide Step, IsBlank, ValueBegun, ApplyAll;
    ValueFirst(max, p, v[0]);
    TakeTape(log, HeaderValueData, "", v[0]);
  }

  lemma BegunIsValue(p: Parser, ch: char)
    ensures ValueBegun(p, ch).state.HeaderValue?
  {
  }

  lemma LineEndSteps(max: nat, p: Parser)
    requires p.nread < max
    ensures p.state.HeaderValue? ==>
      Step(max, p, CR) == Next(p.(nread := p.nread + 1, state := HeaderAlmostDone), [Flush(HeaderValueData)])
    ensures p.state.HeaderAlmostDone? ==>
      Step(max, p, LF) == Next(p.(nread := p.nread + 1, state := HeaderValueLws), [])
    ensures p.state.HeaderValueDiscardWs? ==>
      Step(max, p, CR) == Next(p.(nread := p.nread + 1, state := HeaderValueDiscardWsAlmostDone), [])
    ensures p.state.HeaderValueDiscardWsAlmostDone? ==>
      Step(max, p, LF) == Next(p.(nread := p.nread + 1, state := HeaderValueDiscardLws), [])
  {
    hide Step, ValueLetter, IsHeaderChar, FieldStart, FieldByte, ValueStart, EndOfHeaders, AfterEmptyLine,
         AfterValueLine;
    if PartOf(p.state).HeaderPart? {
      HeaderStepIs(max, p, CR);
      HeaderStepIs(max, p, LF);
    }
  }

  /** The line end after a value, and after a name with no value. */
  lemma LineEnds(max: nat, p: Parser, log: seq<Event>, open: bool)
    requires (p.state.HeaderValue? && open) || (p.state.HeaderValueDiscardWs? && !open)
    requires p.nread + 2 <= max
    ensures Leads(max, p, Tape(log, open), "\r\n",
                  p.(nread := p.nread + 2, state := if open then HeaderValueLws else HeaderValueDiscardLws),
                  Tape(log, false))
  {
    hide Step, ApplyAll, RunFrom;
    LineEndSteps(max, p);
    var a := p.(nread := p.nread + 1, state := if open then HeaderAlmostDone else HeaderValueDiscardWsAlmostDone);
    var b := p.(nread := p.nread + 2, state := if open then HeaderValueLws else HeaderValueDiscardLws);
    var t, u := Tape(log, open), Tape(log, false);
    if open {
      ApplyFlush(t, HeaderValueData, CR);
      LeadsByte(max, p, t, CR, a, [Flush(HeaderValueData)]);
    } else {
      LeadsQuietly(max, p, t, CR, a);
    }
    LineEndSteps(max, a);
    LeadsQuietly(max, a, u, LF, b);
    Join(max, p, t, [CR], a, u, [LF], b, u);
    assert [CR] + [LF] == "\r\n";
  }

  lemma WholeLine(n: string, v: string)
    ensures (n + ":") + v + "\r\n" == HeaderLine(n, v)
  {
  }

  /** A whole line with a value. */
  lemma LineLeads(max: nat, p: Parser, log: seq<Event>, n: string, v: string, c: Parser)
    requires p.state.HeaderFieldStart? && n != "" && AllTokens(n) && p.nread + |n| + |v| + 3 <= max
    requires c.state.HeaderValue?
    requires
      var u := Tape(log + [Data(HeaderFieldData, n)], false);
      Leads(max, NameRead(p, n), u, v, c.(nread := p.nread + |n| + |v| + 1),
            Tape(u.log + [Data(HeaderValueData, v)], true))
    ensures
      var d := c.(nread := p.nread + |n| + |v| + 3, state := HeaderValueLws);
      LeadsToLine(max, p, Tape(log, false), HeaderLine(n, v), Settled(d),
                  Tape(log + [Data(HeaderFieldData, n), Data(HeaderValueData, v)], false))
  {
    hide RunFrom, NameRead, AllTokens, Settled, HeaderLine, Commit;
    var t, u := Tape(log, false), Tape(log + [Data(HeaderFieldData, n)], false);
    var b := c.(nread := p.nread + |n| + |v| + 1);
    var w := Tape(u.log + [Data(HeaderValueData, v)], true);
    var d := c.(nread := p.nread + |n| + |v| + 3, state := HeaderValueLws);
    NameLeads(max, p, log, n);
    Join(max, p, t, n + ":", NameRead(p, n), u, v, b, w);
    LineEnds(max, b, w.log, true);
    Join(max, p, t, (n + ":") + v, b, w, "\r\n", d, Tape(w.log, false));
    WholeLine(n, v);
    LineDone(max, p, t, HeaderLine(n, v), d, Tape(w.log, false));
    assert w.log == log + [Data(HeaderFieldData, n), Data(HeaderValueData, v)];
  }

  // ----- A header that the parser does not interpret -----

  predicate Harmless(hs: HeaderState) {
    hs.General? || hs.HC? || hs.HCO? || hs.HCON? || hs.MatchingConnection? || hs.MatchingProxyConnection?
    || hs.MatchingContentLength? || hs.MatchingTransferEncoding? || hs.MatchingUpgrade?
  }

  lemma NamelessIsHarmless(hs: HeaderState, index: nat, n: string)
    requires FieldSays(hs, index, n) && Uninterpreted(n)
    ensures Harmless(hs)
  {
    hide FoldAll;
  }

  lemma HarmlessValue(p: Parser, ch: char)
    requires Harmless(p.headerState)
    ensures ValueBegun(p, ch) == p.(state := HeaderValue, index := 0, headerState := General)
    ensures Commit(p.flags, p.headerState) == p.flags
  {
  }

  lemma NameReadPlain(p: Parser, n: string)
    requires n != "" && AllTokens(n) && Uninterpreted(n)
    ensures
      var q := NameRead(p, n);
      Harmless(q.headerState) && (q.usesTE <==> p.usesTE || "transfer-encoding" <= FoldAll(n))
      && q == p.(nread := p.nread + |n| + 1, state := HeaderValueDiscardWs, headerState := q.headerState,
                 index := q.index,                  usesTE := q.usesTE)
  {
    hide FieldFold, IsToken, NameBegun, FieldSays, Uninterpreted, Harmless, FoldAll;
    NameFrame(p, n);
    NameExactly(p, n);
    var g := FieldFold(NameBegun(p, n[0]), n, 1, |n|);
    NamelessIsHarmless(g.headerState, g.index, n);
  }

  lemma {:induction false} GeneralFold(p: Parser, v: string, i: nat)
    requires p.headerState.General? && i <= |v| && AllValue(v)
    ensures ValueFold(p, v, i, |v|) == Some(p)
    decreases |v| - i
  {
    hide ValueLetter, IsHeaderChar;
    if i < |v| {
      GeneralStays(p, v[i]);
      GeneralFold(p, v, i + 1);
    }
  }

  predicate PlainValue(v: string) { AllValue(v) && (v != "" ==> !IsBlank(v[0])) }

  predicate Ordinary(h: Header) { h.name != "" && AllTokens(h.name) && Ignored(h.name) && PlainValue(h.value) }

  function EventsOf(h: Header): seq<Event> { [Data(HeaderFieldData, h.name), Data(HeaderValueData, h.value)] }

  /** A header that the parser does not interpret changes the byte count, and `uses_transfer_encoding` if its name
      starts that way, and is called back as it is. */
  lemma PlainLine(max: nat, p: Parser, log: seq<Event>, h: Header) returns (q: Parser)
    requires p.state.HeaderFieldStart? && h.name != "" && AllTokens(h.name) && Uninterpreted(h.name)
    requires PlainValue(h.value)
    requires p.nread + |h.name| + |h.value| + 3 <= max
    ensures q == p.(nread := p.nread + |h.name| + |h.value| + 3, headerState := q.headerState, index := q.index,
                    usesTE := q.usesTE)
    ensures q.usesTE <==> p.usesTE || "transfer-encoding" <= FoldAll(h.name)
    ensures LeadsToLine(max, p, Tape(log, false), HeaderLine(h.name, h.value), q, Tape(log + EventsOf(h), false))
  {
    hide RunFrom, NameRead, AllTokens, HeaderLine, Commit, Uninterpreted, AllValue, IsBlank, ValueBegun, ValueFold,
         LeadsToLine,
         FoldAll;
    var n, v := h.name, h.value;
    NameReadPlain(p, n);
    var a := NameRead(p, n);
    if v == "" {
      q := EmptyLine(max, p, log, n);
    } else {
      HarmlessValue(a, v[0]);
      var c := ValueBegun(a, v[0]);
      FirstIsValue(v);
      GeneralFold(c, v, 1);
      HarmlessIsNoLength(a.headerState);
      ValueLeads(max, a, log + [Data(HeaderFieldData, n)], v, c);
      LineLeads(max, p, log, n, v, c);
      var d := c.(nread := p.nread + |n| + |v| + 3, state := HeaderValueLws);
      HarmlessValue(d, v[0]);
      q := Settled(d);
    }
  }

  /** A header that the parser does not act on changes the byte count only. */
  lemma OrdinaryLine(max: nat, p: Parser, log: seq<Event>, h: Header) returns (q: Parser)
    requires p.state.HeaderFieldStart? && Ordinary(h) && p.nread + |h.name| + |h.value| + 3 <= max
    ensures q == p.(nread := p.nread + |h.name| + |h.value| + 3, headerState := q.headerState, index := q.index)
    ensures LeadsToLine(max, p, Tape(log, false), HeaderLine(h.name, h.value), q, Tape(log + EventsOf(h), false))
  {
    hide AllTokens, Uninterpreted, PlainValue, LeadsToLine, HeaderLine, FoldAll;
    q := PlainLine(max, p, log, h);
  }

  lemma FirstIsValue(v: string)
    requires AllValue(v) && v != ""
    ensures v[0] != CR && v[0] != LF
  {
  }

  lemma HarmlessIsNoLength(hs: HeaderState)
    requires Harmless(hs)
    ensures !hs.ContentLength?
  {
  }

  lemma EmptyLine(max: nat, p: Parser, log: seq<Event>, n: string) returns (q: Parser)
    requires p.state.HeaderFieldStart? && n != "" && AllTokens(n) && Uninterpreted(n) && p.nread + |n| + 3 <= max
    ensures q == p.(nread := p.nread + |n| + 3, headerState := q.headerState, index := q.index, usesTE := q.usesTE)
    ensures q.usesTE <==> p.usesTE || "transfer-encoding" <= FoldAll(n)
    ensures LeadsToLine(max, p, Tape(log, false), HeaderLine(n, ""), q, Tape(log + EventsOf(Header(n, "")), false))
  {
    hide RunFrom, NameRead, AllTokens, HeaderLine, Commit, Uninterpreted, LeadsToLine, Harmless, FoldAll;
    NameReadPlain(p, n);
    var a := NameRead(p, n);
    HarmlessIsNoLength(a.headerState);
    HarmlessValue(a, ' ');
    var t, u := Tape(log, false), Tape(log + [Data(HeaderFieldData, n)], false);
    NameLeads(max, p, log, n);
    LineEnds(max, a, u.log, false);
    var d := a.(nread := a.nread + 2, state := HeaderValueDiscardLws);
    Join(max, p, t, n + ":", a, u, "\r\n", d, u);
    WholeLine(n, "");
    assert (n + ":") + "" + "\r\n" == (n + ":") + "\r\n";
    LineDone(max, p, t, HeaderLine(n, ""), d, u);
    q := Settled(d);
    assert u.log + [Data(HeaderValueData, "")] == log + EventsOf(Header(n, ""));
  }

  // ----- Several lines -----

  function Lines(h: seq<Header>): string {
    if h == [] then "" else HeaderLine(h[0].name, h[0].value) + Lines(h[1..])
  }

  function LinesEvents(h: seq<Header>): seq<Event> {
    if h == [] then [] else EventsOf(h[0]) + LinesEvents(h[1..])
  }

  lemma NulIsNoToken(ch: char)
    requires IsToken(ch)
    ensures ch != '\0' && !IsBlank(ch)
  {
  }

  /** A line with a name starts with no blank. */
  lemma NameStarts(n: string, v: string)
    requires n != "" && AllTokens(n)
    ensures HeaderLine(n, v) != "" && !IsBlank(HeaderLine(n, v)[0])
  {
    hide IsToken, IsBlank;
    NulIsNoToken(n[0]);
    assert HeaderLine(n, v)[0] == n[0];
  }

  lemma LinesStart(h: seq<Header>)
    requires forall k :: 0 <= k < |h| ==> Ordinary(h[k])
    ensures Lines(h) == "" || !IsBlank(Lines(h)[0])
  {
    hide AllTokens, Ignored, PlainValue, IsBlank, HeaderLine;
    if h != [] { NameStarts(h[0].name, h[0].value); }
  }

  lemma LineLength(n: string, v: string)
    ensures |HeaderLine(n, v)| == |n| + |v| + 3
  {
  }

  lemma {:induction false} LinesRead(max: nat, p: Parser, log: seq<Event>, h: seq<Header>) returns (q: Parser)
    requires p.state.HeaderFieldStart? && p.nread + |Lines(h)| <= max && forall k :: 0 <= k < |h| ==> Ordinary(h[k])
    ensures q == p.(nread := p.nread + |Lines(h)|, headerState := q.headerState, index := q.index)
    ensures LeadsToLine(max, p, Tape(log, false), Lines(h), q, Tape(log + LinesEvents(h), false))
    decreases |h|
  {
    hide Ordinary, HeaderLine, RunFrom, LeadsToLine, IsBlank, EventsOf;
    var t := Tape(log, false);
    if h == [] {
      q := p;
      NoLine(max, p, t);
      assert log + LinesEvents(h) == log;
    } else {
      LineLength(h[0].name, h[0].value);
      var a := OrdinaryLine(max, p, log, h[0]);
      var u := Tape(log + EventsOf(h[0]), false);
      q := LinesRead(max, a, u.log, h[1..]);
      LinesStart(h[1..]);
      JoinLines(max, p, t, HeaderLine(h[0].name, h[0].value), a, u, Lines(h[1..]), q,
                Tape(u.log + LinesEvents(h[1..]), false));
      assert u.log + LinesEvents(h[1..]) == log + LinesEvents(h);
    }
  }

  lemma StartsWell(a: string, b: string)
    requires (a == "" || !IsBlank(a[0])) && (b == "" || !IsBlank(b[0]))
    ensures a + b == "" || !IsBlank((a + b)[0])
  {
    hide IsBlank;
    if a == "" { assert a + b == b; }
  }

  // ----- The connection line -----

  lemma {:induction false} WordMatches(p: Parser, v: string, i: nat, hit: HeaderState)
    requires (p.headerState.ConnMatchingKeepAlive? && hit == ConnKeepAlive)
      || (p.headerState.ConnMatchingClose? && hit == ConnClose)
    requires v == Wanted(p.headerState) && 1 <= i < |v| && p.index == i - 1
    requires forall k :: 0 <= k < |v| ==> ValueChar(v[k]) && Lower(v[k]) == v[k]
    ensures ValueFold(p, v, i, |v|) == Some(p.(headerState := hit, index := |v| - 1))
    decreases |v| - i
  {
    WantedIsShort(p.headerState);
    assert Bump(p.index) == i;
    assert ValueScan(p.headerState, p.index, v[i]) == Scan(if i == |v| - 1 then hit else p.headerState, i);
    hide ValueScan, IsHeaderChar, Lower;
    var q := p.(headerState := if i == |v| - 1 then hit else p.headerState, index := i);
    assert ValueLetter(p, v[i]) == Some(q);
    if i < |v| - 1 {
      WordMatches(q, v, i + 1, hit);
    } else {
      assert ValueFold(q, v, i + 1, |v|) == Some(q);
    }
  }

  lemma WordChars(v: string)
    requires v == "keep-alive" || v == "close"
    ensures forall k :: 0 <= k < |v| ==> ValueChar(v[k]) && Lower(v[k]) == v[k]
    ensures !IsBlank(v[0]) && v[0] != CR && v[0] != LF
  {
  }

  lemma NameReadWord(p: Parser, n: string)
    requires n != "" && AllTokens(n) && (FoldAll(n) == "connection" || FoldAll(n) == "content-length")
    ensures
      var q := NameRead(p, n);
      q == p.(nread := p.nread + |n| + 1, state := HeaderValueDiscardWs, index := q.index,
              headerState := if FoldAll(n) == "connection" then Connection else ContentLength)
  {
    hide FoldAll, AllTokens, NameRead;
    NameReadExactly(p, n);
  }

  lemma WordsAreTokens(n: string)
    requires n == "connection" || n == "content-length"
    ensures AllTokens(n) && FoldAll(n) == n
  {
  }

  function ConnectionValue(keep: bool): string { if keep then "keep-alive" else "close" }

  lemma ConnectionBegun(p: Parser, keep: bool)
    requires p.headerState == Connection
    ensures ValueBegun(p, ConnectionValue(keep)[0])
      == p.(state := HeaderValue, index := 0, headerState := if keep then ConnMatchingKeepAlive else ConnMatchingClose)
  {
  }

  lemma ConnectionFold(p: Parser, keep: bool)
    requires p.headerState == (if keep then ConnMatchingKeepAlive else ConnMatchingClose) && p.index == 0
    ensures
      var v := ConnectionValue(keep);
      ValueFold(p, v, 1, |v|) == Some(p.(headerState := if keep then ConnKeepAlive else ConnClose, index := |v| - 1))
  {
    hide ValueFold, ValueChar, Lower;
    WordChars(ConnectionValue(keep));
    WordMatches(p, ConnectionValue(keep), 1, if keep then ConnKeepAlive else ConnClose);
  }

  /** The connection line that the printer writes sets exactly one flag. */
  lemma ConnectionRead(max: nat, p: Parser, log: seq<Event>, keep: bool) returns (q: Parser)
    requires p.state.HeaderFieldStart? && p.nread + |HeaderLine("connection", ConnectionValue(keep))| <= max
    ensures q == p.(nread := p.nread + |HeaderLine("connection", ConnectionValue(keep))|,
                    headerState := q.headerState, index := q.index,
                    flags := if keep then p.flags.(keepAlive := true) else p.flags.(close := true))
    ensures LeadsToLine(max, p, Tape(log, false), HeaderLine("connection", ConnectionValue(keep)), q,
                        Tape(log + EventsOf(Header("connection", ConnectionValue(keep))), false))
  {
    hide RunFrom, NameRead, AllTokens, LeadsToLine, ConnectionValue, AtLine;
    var n, v := "connection", ConnectionValue(keep);
    WordsAreTokens(n);
    NameReadWord(p, n);
    ConnectionIs(keep);
    var a := NameRead(p, n);
    var c := a.(state := HeaderValue, index := |v| - 1, headerState := if keep then ConnKeepAlive else ConnClose);
    ConnectionWordLeads(max, a, log + [Data(HeaderFieldData, n)], keep);
    LineLeads(max, p, log, n, v, c);
    q := Settled(c.(nread := p.nread + |n| + |v| + 3, state := HeaderValueLws));
  }

  lemma ConnectionWordLeads(max: nat, p: Parser, log: seq<Event>, keep: bool)
    requires p.state.HeaderValueDiscardWs? && p.headerState.Connection? && p.nread + |ConnectionValue(keep)| <= max
    ensures
      var v := ConnectionValue(keep);
      Leads(max, p, Tape(log, false), v,
            p.(state := HeaderValue, index := |v| - 1, headerState := if keep then ConnKeepAlive else ConnClose,
               nread := p.nread + |v|),
            Tape(log + [Data(HeaderValueData, v)], true))
  {
    hide RunFrom, IsBlank, ValueBegun, ValueFold, ValueChar, Lower, ConnectionValue;
    var v := ConnectionValue(keep);
    ConnectionIs(keep);
    ConnectionBegun(p, keep);
    ConnectionFold(ValueBegun(p, v[0]), keep);
    WordChars(v);
    ValueLeads(max, p, log, v,
               p.(state := HeaderValue, index := |v| - 1, headerState := if keep then ConnKeepAlive else ConnClose));
  }

  lemma ConnectionIs(keep: bool)
    ensures ConnectionValue(keep) == "keep-alive" || ConnectionValue(keep) == "close"
    ensures ConnectionValue(keep) != ""
  {
  }

  // ----- The length line -----

  lemma {:induction false} DecimalValue(n: nat)
    ensures AllDigits(Decimal(n)) && DecValue(Decimal(n)) == n && Decimal(n) != ""
    decreases n
  {
    if n >= 10 {
      DecimalValue(n / 10);
      var init, last := Decimal(n / 10), [('0' as int + n % 10) as char];
      assert (init + last)[..|init|] == init;
    } else {
      assert Decimal(n)[..0] == "";
    }
  }

  /** A length line: its value is the number that its digits denote, and it is called back as it is. */
  lemma LengthRead(max: nat, p: Parser, log: seq<Event>, h: Header) returns (q: Parser)
    requires p.state.HeaderFieldStart? && !p.flags.contentLength
    requires h.name != "" && AllTokens(h.name) && FoldAll(h.name) == "content-length"
    requires h.value != "" && AllDigits(h.value) && DecValue(h.value) <= MAX_LENGTH
    requires p.nread + |HeaderLine(h.name, h.value)| <= max
    ensures q == p.(nread := p.nread + |HeaderLine(h.name, h.value)|, headerState := q.headerState, index := q.index,
                    contentLength := DecValue(h.value), flags := p.flags.(contentLength := true))
    ensures LeadsToLine(max, p, Tape(log, false), HeaderLine(h.name, h.value), q, Tape(log + EventsOf(h), false))
  {
    hide RunFrom, NameRead, AllTokens, LeadsToLine, DecValue, AllDigits, FoldAll;
    var name, v := h.name, h.value;
    NameReadWord(p, name);
    var a := NameRead(p, name);
    ContentLengthValue(max, a, log + [Data(HeaderFieldData, name)], v);
    var c := a.(state := HeaderValue, index := 0, flags := p.flags.(contentLength := true),
                contentLength := DecValue(v),
                headerState := ContentLengthNum);
    LineLeads(max, p, log, name, v, c);
    q := Settled(c.(nread := p.nread + |name| + |v| + 3, state := HeaderValueLws));
  }
}
