/** Runs over known text, one piece after the other. */
module ParserSegments {
  import opened Bytes
  import opened ParserTypes
  import opened ParserStep
  import opened ParserRun

  /** From this record and tape, the bytes `w` are used up and leave that record and tape. */
  predicate Leads(max: nat, p: Parser, t: Tape, w: string, q: Parser, u: Tape) {
    RunFrom(max, p, t, w, 0) == Running(q, u)
  }

  lemma {:induction false} RunShift(max: nat, p: Parser, t: Tape, a: string, b: string, j: nat)
    requires j <= |b|
    ensures RunFrom(max, p, t, a + b, |a| + j) == Shift(|a|, RunFrom(max, p, t, b, j))
    decreases |b| - j
  {
    hide Step, ApplyAll;
    if j < |b| {
      assert (a + b)[|a| + j] == b[j];
      var o := Step(max, p, b[j]);
      if o.Next? {
        RunShift(max, o.parser, ApplyAll(t, o.actions, b[j]), a, b, j + 1);
      }
    }
  }

  /** What follows a piece. */
  lemma Follow(max: nat, p: Parser, t: Tape, a: string, q: Parser, u: Tape, b: string)
    requires Leads(max, p, t, a, q, u)
    ensures RunFrom(max, p, t, a + b, 0) == Shift(|a|, RunFrom(max, q, u, b, 0))
  {
    hide RunFrom;
    RunConcat(max, p, t, a, b, 0);
    RunShift(max, q, u, a, b, 0);
  }

  lemma Join(max: nat, p: Parser, t: Tape, a: string, q: Parser, u: Tape, b: string, r: Parser, v: Tape)
    requires Leads(max, p, t, a, q, u) && Leads(max, q, u, b, r, v)
    ensures Leads(max, p, t, a + b, r, v)
  {
    hide RunFrom;
    Follow(max, p, t, a, q, u, b);
  }

  lemma LeadsNowhere(max: nat, p: Parser, t: Tape)
    ensures Leads(max, p, t, "", p, t)
  {
  }

  lemma LeadsByte(max: nat, p: Parser, t: Tape, ch: char, q: Parser, acts: seq<Action>)
    requires Step(max, p, ch) == Next(q, acts)
    ensures Leads(max, p, t, [ch], q, ApplyAll(t, acts, ch))
  {
    hide Step, ApplyAll;
    assert RunFrom(max, p, t, [ch], 0) == RunFrom(max, q, ApplyAll(t, acts, ch), [ch], 1);
  }

  /** A byte that notifies nobody. */
  lemma LeadsQuietly(max: nat, p: Parser, t: Tape, ch: char, q: Parser)
    requires Step(max, p, ch) == Next(q, [])
    ensures Leads(max, p, t, [ch], q, t)
  {
    hide Step;
    LeadsByte(max, p, t, ch, q, []);
  }

  lemma LeadsNotify(max: nat, p: Parser, t: Tape, ch: char, q: Parser, e: Event)
    requires Step(max, p, ch) == Next(q, [Notify(e)])
    ensures Leads(max, p, t, [ch], q, Tape(t.log + [e], t.open))
  {
    hide Step;
    LeadsByte(max, p, t, ch, q, [Notify(e)]);
    assert [Notify(e)][1..] == [];
  }

  lemma OneNote(log: seq<Event>, e: Event, ch: char)
    ensures ApplyAll(Tape(log, false), [Notify(e)] + [], ch) == Tape(log + [e], false)
  {
    assert ([Notify(e)] + [])[1..] == [];
  }

  lemma TwoNotes(log: seq<Event>, a: Event, b: Event, ch: char)
    ensures ApplyAll(Tape(log, false), [Notify(a)] + [Notify(b)], ch) == Tape(log + [a] + [b], false)
    ensures log + [a] + [b] == log + [a, b]
  {
    var acts := [Notify(a)] + [Notify(b)];
    assert acts[1..] == [Notify(b)] && [Notify(b)][1..] == [];
    var u := Apply(Tape(log, false), acts[0], ch);
    assert ApplyAll(Tape(log, false), acts, ch) == ApplyAll(u, [Notify(b)], ch) == Apply(u, Notify(b), ch);
  }

  /** A piece on which the run fails. */
  lemma FailsInside(max: nat, p: Parser, t: Tape, a: string, b: string)
    requires RunFrom(max, p, t, a, 0).Failed?
    ensures RunFrom(max, p, t, a + b, 0) == RunFrom(max, p, t, a, 0)
  {
    hide RunFrom;
    RunConcat(max, p, t, a, b, 0);
  }

  lemma FailsAt(max: nat, p: Parser, t: Tape, ch: char, e: Errno)
    requires Step(max, p, ch) == Fail(e, [])
    ensures RunFrom(max, p, t, [ch], 0) == Failed(0, e, t)
  {
    hide Step;
  }

  lemma FailsWith(max: nat, p: Parser, t: Tape, ch: char, e: Errno, acts: seq<Action>)
    requires Step(max, p, ch) == Fail(e, acts)
    ensures RunFrom(max, p, t, [ch], 0) == Failed(0, e, ApplyAll(t, acts, ch))
  {
    hide Step, ApplyAll;
  }

  lemma ExitsAt(max: nat, p: Parser, t: Tape, ch: char, q: Parser, acts: seq<Action>)
    requires Step(max, p, ch) == Exit(q, acts)
    ensures RunFrom(max, p, t, [ch], 0) == Exited(1, q, ApplyAll(t, acts, ch).log)
  {
    hide Step, ApplyAll;
  }

  lemma InitLast(s: string)
    requires s != ""
    ensures s == s[..|s| - 1] + [s[|s| - 1]]
  {
  }

  // ----- Which part of the switch a step uses -----

  lemma BodyStepIs(max: nat, p: Parser, ch: char)
    requires PartOf(p.state).BodyPart?
    ensures Step(max, p, ch) ==
      if !ParsingHeader(p.state) then StepBody(p, ch)
      else if p.nread + 1 > max then Fail(HeaderOverflow, [])
      else StepBody(p.(nread := p.nread + 1), ch)
  {
    hide StepBody, StepHeaders, StepVersion, StepRequestLine, StepStatusLine, StartEither, ParsingHeader;
  }

  lemma HeaderStepIs(max: nat, p: Parser, ch: char)
    requires PartOf(p.state).HeaderPart?
    ensures Step(max, p, ch) ==
      if p.nread + 1 > max then Fail(HeaderOverflow, []) else StepHeaders(p.(nread := p.nread + 1), ch)
  {
    hide StepBody, StepHeaders, StepVersion, StepRequestLine, StepStatusLine, StartEither;
  }

  lemma RequestStepIs(max: nat, p: Parser, ch: char)
    requires PartOf(p.state).RequestLinePart?
    ensures Step(max, p, ch) ==
      if p.nread + 1 > max then Fail(HeaderOverflow, []) else StepRequestLine(p.(nread := p.nread + 1), ch)
  {
    hide StepBody, StepHeaders, StepVersion, StepRequestLine, StepStatusLine, StartEither;
  }

  lemma VersionStepIs(max: nat, p: Parser, ch: char)
    requires PartOf(p.state).VersionPart?
    ensures Step(max, p, ch) ==
      if p.nread + 1 > max then Fail(HeaderOverflow, []) else StepVersion(p.(nread := p.nread + 1), ch)
  {
    hide StepBody, StepHeaders, StepVersion, StepRequestLine, StepStatusLine, StartEither;
  }

  /** The empty line that ends the headers or the trailer. */
  lemma EmptyLineCR(max: nat, p: Parser)
    requires p.state.HeaderFieldStart? && p.nread < max
    ensures Step(max, p, CR) == Next(p.(nread := p.nread + 1, state := HeadersAlmostDone), [])
  {
    hide Step, EndOfHeaders, FieldByte, ValueStart, ValueByte, AfterEmptyLine, AfterValueLine;
    HeaderStepIs(max, p, CR);
  }
}
