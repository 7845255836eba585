/** Where a run stands after one byte or one batch, with the invariant and the open run carried along. */
module ParserProgress {
  import opened Bytes
  import opened ParserTypes
  import opened ParserStep
  import opened ParserInvariant
  import opened ParserMarks
  import opened ParserRun
  import opened ParserBatches

  /** What is known of byte `i`, which is read in the batch `b`, and of the rest of the run. */
  predicate Continues(r: Run, max: nat, o: Outcome, t: Tape, live: Option<Kind>, data: string, i: nat, b: Option<Batch>)
    requires i < |data|
  {
    match o
    case Fail(e, acts) =>
      r == Run(Failed(i, e, ApplyAll(t, acts, data[i])), b) && e != Ok && (acts == [] || Proper(live, false, acts))
    case Exit(q, acts) =>
      r.result == Exited(i + 1, q, ApplyAll(t, acts, data[i]).log)
      && Proper(live, false, acts) && After(live, acts).None?
    case Next(q, acts) =>
      && Good(max, q) && q.nread <= max && Proper(live, false, acts)
      && Related(q, ApplyAll(t, acts, data[i]), After(live, acts))
      && r == Watched(max, q, ApplyAll(t, acts, data[i]), data, i + 1, b)
  }

  lemma StepSays(r: Run, max: nat, p: Parser, t: Tape, live: Option<Kind>, data: string, i: nat, b: Option<Batch>)
    requires i < |data| && Good(max, p) && Related(p, t, live) && r == Watched(max, p, t, data, i, b)
    ensures Continues(r, max, Step(max, p, data[i]), t, live, data, i, BatchAt(p, t, i, b))
  {
    hide Step, Good, Related, Proper, After, LiveOk, Live, Merge, EmitAll, ApplyAll, BatchAt;
    StepKeeps(max, p, data[i]);
    StepRelated(max, p, t, live, data[i]);
    RelatedLive(p, t, live);
    StepActs(max, p, data[i], live);
    var o := Step(max, p, data[i]);
    if o.Next? { GoodCount(max, o.parser); }
  }

  lemma GoodCount(max: nat, p: Parser)
    requires Good(max, p)
    ensures p.nread <= max
  {
  }

  /** A header byte past the limit. */
  lemma LimitPassed(max: nat, p: Parser, t: Tape, data: string, i: nat, b: Option<Batch>)
    requires i < |data| && ParsingHeader(p.state) && p.nread + 1 > max
    ensures Watched(max, p, t, data, i, b) == Run(Failed(i, HeaderOverflow, t), BatchAt(p, t, i, b))
  {
    hide Step, BatchAt;
    StepIs(max, p, data[i]);
    WatchFail(max, p, t, data, i, b, HeaderOverflow, []);
  }

  lemma FieldOpen(p: Parser, t: Tape, live: Option<Kind>)
    requires Related(p, t, live) && p.state.HeaderField?
    ensures live == Some(HeaderFieldData) && t.open && EndsWith(t.log, HeaderFieldData)
  {
  }

  /** The byte after a field name. */
  lemma FieldStop(r: Run, max: nat, p: Parser, t: Tape, data: string, j: nat, b: Batch)
    requires j < |data| && p.state.HeaderField? && !IsToken(data[j])
    requires Good(max, p) && Related(p, t, Some(HeaderFieldData)) && r == Watched(max, p, t, data, j, Some(b))
    ensures
      var q, u := p.(nread := p.nread + 1, state := HeaderValueDiscardWs), Tape(t.log, false);
      if p.nread + 1 > max then PassesLimit(r, b)
      else if data[j] != ':' then r.result == Failed(j, InvalidHeaderToken, t)
      else r == Watched(max, q, u, data, j + 1, None) && Good(max, q) && Related(q, u, None)
  {
    hide Watched, Good, Related, IsToken, Step, ApplyAll, After, Proper;
    StepSays(r, max, p, t, Some(HeaderFieldData), data, j, Some(b));
    FieldEnd(max, p, data[j]);
    ApplyFlush(t, HeaderFieldData, data[j]);
    CloseRun(HeaderFieldData, Some(HeaderFieldData));
    CloseBatch(max, p.(nread := p.nread + 1, state := HeaderValueDiscardWs), Tape(t.log, false), data, j + 1, Some(b));
    ApplyNothing(t, data[j]);
  }

  lemma ApplyNothing(t: Tape, ch: char)
    ensures ApplyAll(t, [], ch) == t
  {
  }

  lemma ValueOpen(p: Parser, t: Tape, live: Option<Kind>)
    requires Related(p, t, live) && p.state.HeaderValue?
    ensures live == Some(HeaderValueData) && t.open && EndsWith(t.log, HeaderValueData)
  {
  }

  /** The byte after a batch of value bytes: a line end, or a byte the value does not allow. */
  lemma ValueStop(r: Run, max: nat, p: Parser, t: Tape, data: string, j: nat, b: Batch)
    requires j < |data| && p.state.HeaderValue? && (ValueChar(data[j]) ==> ValueLetter(p, data[j]).None?)
    requires Good(max, p) && Related(p, t, Some(HeaderValueData)) && r == Watched(max, p, t, data, j, Some(b))
    ensures
      var q := p.(nread := p.nread + 1, state := if data[j] == CR then HeaderAlmostDone else HeaderValueLws);
      var u := Tape(t.log, false);
      if p.nread + 1 > max then PassesLimit(r, b)
      else if data[j] == CR || data[j] == LF then
        r == Watched(max, q, u, data, j + 1, None) && Good(max, q) && Related(q, u, None)
      else r.result == Failed(j, EndError(data, j), t)
  {
    hide Watched, Good, Related, Step, ApplyAll, After, Proper, ValueLetter, IsHeaderChar;
    StepSays(r, max, p, t, Some(HeaderValueData), data, j, Some(b));
    ValueStep(max, p, data[j]);
    ValueLetterCommutes(p, p.nread + 1, data[j]);
    ApplyFlush(t, HeaderValueData, data[j]);
    CloseRun(HeaderValueData, Some(HeaderValueData));
    var q := p.(nread := p.nread + 1, state := if data[j] == CR then HeaderAlmostDone else HeaderValueLws);
    CloseBatch(max, q, Tape(t.log, false), data, j + 1, Some(b));
    ApplyNothing(t, data[j]);
  }

  lemma ValueCounted(p: Parser, data: string, i: nat)
    requires i <= |data|
    ensures ValueFold(p, data, i, i) == Some(p)
  {
  }

  /** A batch does not look at the count. */
  lemma ValueFoldCounted(p: Parser, data: string, i: nat, m: nat)
    requires i <= m <= |data| && ValueFold(p.(nread := p.nread + 1), data, i, m).Some?
    ensures ValueFold(p, data, i, m).Some?
    ensures ValueFold(p.(nread := p.nread + 1), data, i, m).value
      == ValueFold(p, data, i, m).value.(nread := p.nread + 1)
  {
    hide ValueFold;
    ValueCommutes(p, p.nread + 1, data, i, m);
  }

  predicate ReadSays(r: Run, max: nat, p: Parser, t: Tape, data: string, i: nat, m: nat, j: nat, v: Parser)
    requires i <= m <= j <= |data|
  {
    var q, b := v.(nread := p.nread + (j - i)), Batch(i, p, t);
    if m < j || q.nread > max then PassesLimit(r, b) && p.nread + 1 + (j - 1 - i) > max
    else r == Watched(max, q, TakeAll(t, data[i..j]), data, j, Some(b)) && Good(max, q) && q.state.HeaderValue?
         && Related(q, TakeAll(t, data[i..j]), Some(HeaderValueData))
  }

  /** What `ReadValue` found, in terms of the run: a skipped byte always comes after the header limit. */
  lemma ValueReadSays(r: Run, max: nat, p: Parser, t: Tape, data: string, i: nat, m: nat, j: nat, v: Parser)
    requires i <= m <= j <= |data| && i < |data| && p.state.HeaderValue? && t.open && EndsWith(t.log, HeaderValueData)
    requires Good(max, p) && p.nread <= max && r == Watched(max, p, t, data, i, None)
    requires
      var was := p.(nread := p.nread + 1);
      ValueFold(was, data, i, m).Some? && (m == j ==> ValueFold(was, data, i, m) == Some(v)) && (m < j ==> max <= m - i)
    ensures ReadSays(r, max, p, t, data, i, m, j, v)
  {
    hide Watched, Good, Related, ValueFold, TakeAll;
    ValueFoldCounted(p, data, i, m);
    ValueBatch(r, max, p, t, data, i, m);
    if m < j && p.nread + (m - i) <= max {
      var q := ValueFold(p, data, i, m).value.(nread := p.nread + (m - i));
      LimitPassed(max, q, TakeAll(t, data[i..m]), data, m, Some(Batch(i, p, t)));
    }
  }

  lemma BadValue(r: Run, max: nat, p: Parser, t: Tape, data: string, i: nat, m: nat, j: nat, v: Parser)
    requires i <= m <= j < |data| && ReadSays(r, max, p, t, data, i, m, j, v) && !EndError(data, j).Ok?
    requires EndError(data, j).InvalidContentLength? ==> m == j && ValueLetter(v, data[j]).None?
    ensures PassesLimit(r, Batch(i, p, t)) || r.result == Failed(j, EndError(data, j), TakeAll(t, data[i..j]))
  {
    hide Watched, Good, Related, TakeAll, ValueLetter, IsHeaderChar;
    var q := v.(nread := p.nread + (j - i));
    ValueLetterCommutes(v, q.nread, data[j]);
    if m == j && q.nread <= max {
      ValueStop(r, max, q, TakeAll(t, data[i..j]), data, j, Batch(i, p, t));
    }
  }

  lemma BodyLive(p: Parser, t: Tape, live: Option<Kind>)
    requires Related(p, t, live) && MayBeInBody(p.state)
    ensures live.None? || live == Some(Body)
    ensures t.open == live.Some? && (t.open ==> EndsWith(t.log, Body))
  {
  }

  lemma BodyRelated(p: Parser, t: Tape, s: string)
    requires MayBeInBody(p.state) && (t.open ==> EndsWith(t.log, Body))
    ensures Related(p, TakeBody(t, s), Some(Body))
  {
  }

  /** The assertion of the source at both body states. */
  lemma LengthKnown(max: nat, p: Parser)
    requires Good(max, p) && (p.state.BodyIdentity? || p.state.ChunkData?)
    ensures p.contentLength != 0 && p.contentLength != ULLONG_MAX
  {
  }

  lemma LengthLeft(max: nat, p: Parser, n: nat)
    requires Good(max, p) && (p.state.BodyIdentity? || p.state.ChunkData?) && 0 < n <= p.contentLength
    ensures Good(max, p.(contentLength := n))
  {
  }

  lemma ChunkSpent(max: nat, p: Parser)
    requires Good(max, p) && p.state.ChunkData?
    ensures Good(max, p.(contentLength := 0, state := ChunkDataAlmostDone)) && 0 < p.contentLength
  {
  }

  lemma LastChunkStep(max: nat, p: Parser, ch: char)
    requires p.state.ChunkData? && p.contentLength == 1
    ensures Step(max, p, ch) == Next(p.(contentLength := 0, state := ChunkDataAlmostDone), [Mark(Body), Take(Body)])
  {
    hide MessageDone, StepHeaders, StepVersion, StepRequestLine, StepStatusLine, StartEither;
  }

  lemma LastChunkByte(max: nat, p: Parser, t: Tape, data: string, i: nat)
    requires i < |data| && p.state.ChunkData? && p.contentLength == 1 && (t.open ==> EndsWith(t.log, Body))
    ensures
      var q := p.(contentLength := 0, state := ChunkDataAlmostDone);
      Watched(max, p, t, data, i, None) == Watched(max, q, TakeBody(t, data[i..i + 1]), data, i + 1, None)
  {
    hide Step, ApplyAll, TakeBody, Watched;
    LastChunkStep(max, p, data[i]);
    WatchNext(max, p, t, data, i, None, p.(contentLength := 0, state := ChunkDataAlmostDone), [Mark(Body), Take(Body)]);
    TakeBodyOne(t, data[i]);
    assert data[i..i + 1] == [data[i]];
  }

  lemma TakeBodyTwice(t: Tape, data: string, i: nat, j: nat, k: nat)
    requires i < j < k <= |data| && (t.open ==> EndsWith(t.log, Body))
    ensures TakeBody(TakeBody(t, data[i..j]), data[j..k]) == TakeBody(t, data[i..k])
    ensures TakeBody(t, data[i..j]).open && EndsWith(TakeBody(t, data[i..j]).log, Body)
  {
    assert data[i..j] + data[j..k] == data[i..k];
    var u := TakeBody(t, data[i..j]);
    assert t.open ==> u.log[..|u.log| - 1] == t.log[..|t.log| - 1];
    assert !t.open ==> u.log[..|u.log| - 1] == t.log;
    if t.open {
      assert t.log[|t.log| - 1].bytes + data[i..j] + data[j..k] == t.log[|t.log| - 1].bytes + data[i..k];
    }
  }

  /** The bytes of a chunk that a buffer holds. */
  lemma ChunkTaken(r: Run, max: nat, p: Parser, t: Tape, live: Option<Kind>, data: string, i: nat, j: nat)
    requires i < j <= |data| && p.state.ChunkData? && j - i <= p.contentLength
    requires Good(max, p) && Related(p, t, live) && r == Watched(max, p, t, data, i, None)
    ensures live.None? || live == Some(Body)
    ensures
      var n := p.contentLength - (j - i);
      var q := p.(contentLength := n, state := if n == 0 then ChunkDataAlmostDone else ChunkData);
      r == Watched(max, q, TakeBody(t, data[i..j]), data, j, None)
      && Good(max, q) && Related(q, TakeBody(t, data[i..j]), Some(Body))
  {
    hide Watched, Good, Related, TakeBody;
    BodyLive(p, t, live);
    var n := p.contentLength - (j - i);
    var q := p.(contentLength := n, state := if n == 0 then ChunkDataAlmostDone else ChunkData);
    BodyRelated(q, t, data[i..j]);
    if n > 0 {
      BodyRun(max, p, t, data, i, j);
      LengthLeft(max, p, n);
    } else {
      ChunkSpent(max, p);
      if j - i == 1 {
        LastChunkByte(max, p, t, data, i);
      } else {
        BodyRun(max, p, t, data, i, j - 1);
        TakeBodyTwice(t, data, i, j - 1, j);
        LastChunkByte(max, p.(contentLength := 1), TakeBody(t, data[i..j - 1]), data, j - 1);
      }
    }
  }

  lemma EofTaken(r: Run, max: nat, p: Parser, t: Tape, live: Option<Kind>, data: string, i: nat)
    requires i < |data| && p.state.BodyIdentityEof? && Related(p, t, live) && r == Watched(max, p, t, data, i, None)
    ensures live.None? || live == Some(Body)
    ensures r == Watched(max, p, TakeBody(t, data[i..|data|]), data, |data|, None)
    ensures Related(p, TakeBody(t, data[i..|data|]), Some(Body))
  {
    hide Good, Related, TakeBody, Step;
    BodyLive(p, t, live);
    EofRun(max, p, t, data, i);
    assert data[i..] == data[i..|data|];
    BodyRelated(p, t, data[i..|data|]);
  }

  lemma ApplyBodyEnd(t: Tape, ch: char)
    requires t.open ==> EndsWith(t.log, Body)
    ensures ApplyAll(t, [Mark(Body), Take(Body), Flush(Body)] + [Notify(MessageComplete)], ch)
      == Tape(TakeBody(t, [ch]).log + [MessageComplete], false)
  {
    TakeBodyOne(t, ch);
    var acts := [Mark(Body), Take(Body), Flush(Body)] + [Notify(MessageComplete)];
    assert acts[1..] == [Take(Body), Flush(Body), Notify(MessageComplete)];
    assert acts[1..][1..] == [Flush(Body), Notify(MessageComplete)];
    assert acts[1..][1..][1..] == [Notify(MessageComplete)];
    assert acts[1..][1..][1..][1..] == [];
    assert [Mark(Body), Take(Body)][1..] == [Take(Body)];
    assert [Take(Body)][1..] == [];
    var u := Apply(t, Mark(Body), ch);
    var v := Apply(u, Take(Body), ch);
    assert ApplyAll(t, [Mark(Body), Take(Body)], ch) == ApplyAll(u, [Take(Body)], ch) == v;
    assert ApplyAll(t, acts, ch) == ApplyAll(u, acts[1..], ch)
      == ApplyAll(v, [Flush(Body), Notify(MessageComplete)], ch);
    var w := Apply(v, Flush(Body), ch);
    assert ApplyAll(v, [Flush(Body), Notify(MessageComplete)], ch) == ApplyAll(w, [Notify(MessageComplete)], ch);
    assert ApplyAll(w, [Notify(MessageComplete)], ch) == Apply(w, Notify(MessageComplete), ch);
  }

  lemma LastIdentityStep(max: nat, p: Parser, ch: char)
    requires p.state.BodyIdentity? && p.contentLength == 1
    ensures Step(max, p, ch) == Prefix([Mark(Body), Take(Body), Flush(Body)], MessageDone(p.(contentLength := 0)))
  {
    hide MessageDone, StepHeaders, StepVersion, StepRequestLine, StepStatusLine, StartEither;
  }

  lemma LastIdentityByte(r: Run, max: nat, p: Parser, t: Tape, data: string, i: nat)
    requires i < |data| && p.state.BodyIdentity? && p.contentLength == 1 && (t.open ==> EndsWith(t.log, Body))
    requires r == Watched(max, p, t, data, i, None)
    ensures
      var c := p.(contentLength := 0);
      var q, u := c.(state := NewMessage(c)), Tape(TakeBody(t, data[i..i + 1]).log + [MessageComplete], false);
      if p.upgrade then r.result == Exited(i + 1, q, u.log) else r == Watched(max, q, u, data, i + 1, None)
  {
    var c := p.(contentLength := 0);
    hide Step, ApplyAll, TakeBody, NewMessage;
    LastIdentityStep(max, p, data[i]);
    ApplyBodyEnd(t, data[i]);
    assert data[i..i + 1] == [data[i]];
  }

  /** The bytes of an identity body that a buffer holds. */
  lemma IdentityTaken(r: Run, max: nat, p: Parser, t: Tape, live: Option<Kind>, data: string, i: nat, j: nat)
    requires i < j <= |data| && p.state.BodyIdentity? && j - i <= p.contentLength
    requires Good(max, p) && p.nread <= max && Related(p, t, live) && r == Watched(max, p, t, data, i, None)
    ensures live.None? || live == Some(Body)
    ensures
      var n := p.contentLength - (j - i);
      var c, u := p.(contentLength := n), TakeBody(t, data[i..j]);
      if n > 0 then r == Watched(max, c, u, data, j, None) && Good(max, c) && Related(c, u, Some(Body))
      else
        var q, v := c.(state := NewMessage(c)), Tape(u.log + [MessageComplete], false);
        Good(max, q) && Related(q, v, None)
        && if p.upgrade then r.result == Exited(j, q, v.log) else r == Watched(max, q, v, data, j, None)
  {
    hide Watched, Good, Related, TakeBody, NewMessage;
    BodyLive(p, t, live);
    var n := p.contentLength - (j - i);
    var c := p.(contentLength := n);
    if n > 0 {
      BodyRelated(c, t, data[i..j]);
      BodyRun(max, p, t, data, i, j);
      LengthLeft(max, p, n);
    } else {
      IdentityDone(max, p, Tape(TakeBody(t, data[i..j]).log + [MessageComplete], false));
      if j - i == 1 {
        LastIdentityByte(r, max, p, t, data, i);
      } else {
        BodyRun(max, p, t, data, i, j - 1);
        TakeBodyTwice(t, data, i, j - 1, j);
        LastIdentityByte(r, max, p.(contentLength := 1), TakeBody(t, data[i..j - 1]), data, j - 1);
      }
    }
  }

  lemma IdentityDone(max: nat, p: Parser, v: Tape)
    requires Good(max, p) && p.state.BodyIdentity? && !v.open
    ensures
      var c := p.(contentLength := 0);
      var q := c.(state := NewMessage(c));
      Good(max, q) && Related(q, v, None)
  {
    hide NewMessage;
    var c := p.(contentLength := 0);
    MoveToIdle(max, c, c.upgrade);
    NewMessageLive(c);
  }

  lemma RelatedLive(p: Parser, t: Tape, live: Option<Kind>)
    requires Related(p, t, live)
    ensures LiveOk(p.state, live)
  {
  }

  lemma StepIs(max: nat, p: Parser, ch: char)
    ensures Step(max, p, ch)
      == (if !ParsingHeader(p.state) then Dispatch(p, ch)
          else if p.nread + 1 > max then Fail(HeaderOverflow, [])
          else Dispatch(p.(nread := p.nread + 1), ch))
  {
    hide Dispatch;
  }

  lemma EofResumes(p: Parser, log: seq<Event>)
    requires p.state.BodyIdentityEof?
    ensures Resumable(p, log)
  {
  }

  lemma StartTracks(max: nat, p: Parser, log: seq<Event>)
    requires Good(max, p) && Resumable(p, log)
    ensures Related(p, Entry(p, log), Live(p.state)) && p.nread <= max
  {
    EntryRelated(p, log);
  }

  lemma RunsOut(max: nat, p: Parser, t: Tape, data: string)
    ensures RunFrom(max, p, t, data, |data|) == Running(p, t)
  {
  }

  /** At the end of the buffer no batch is left. */
  lemma WatchOver(max: nat, p: Parser, t: Tape, data: string, b: Option<Batch>)
    ensures Watched(max, p, t, data, |data|, b) == Run(Running(p, t), None)
  {
  }

  /** What follows a piece that ends outside the batches. */
  lemma {:induction false} WatchConcat(max: nat, p: Parser, t: Tape, a: string, b: string, i: nat, w: Option<Batch>)
    requires i <= |a| && b != ""
    ensures
      match RunFrom(max, p, t, a, i)
      case Running(q, u) => !InBatch(q.state) ==>
        Watched(max, p, t, a + b, i, w) == Watched(max, q, u, a + b, |a|, None)
      case _ => true
    decreases |a| - i
  {
    hide Step, Watched, InBatch, ApplyAll;
    if i < |a| {
      assert (a + b)[i] == a[i];
      var o := Step(max, p, a[i]);
      if o.Next? {
        WatchNext(max, p, t, a + b, i, w, o.parser, o.actions);
        WatchConcat(max, o.parser, ApplyAll(t, o.actions, a[i]), a, b, i + 1, BatchAt(p, t, i, w));
      }
    } else if !InBatch(p.state) {
      CloseBatch(max, p, t, a + b, |a|, w);
    }
  }

  /** A run that exits leaves a record between messages, with no run open. */
  lemma {:induction false} ExitIsIdle(max: nat, p: Parser, t: Tape, live: Option<Kind>, data: string, i: nat)
    requires i <= |data| && Related(p, t, live)
    ensures
      match RunFrom(max, p, t, data, i)
      case Exited(_, q, log) => Resumable(q, log)
      case _ => true
    decreases |data| - i
  {
    if i < |data| {
      hide Step, Merge, EmitAll, ApplyAll, Related, After, Live, EndsWith, Proper, LiveOk;
      RelatedLive(p, t, live);
      StepActs(max, p, data[i], live);
      StepRelated(max, p, t, live, data[i]);
      var o := Step(max, p, data[i]);
      if o.Next? {
        ExitIsIdle(max, o.parser, ApplyAll(t, o.actions, data[i]), After(live, o.actions), data, i + 1);
      }
    }
  }

  lemma EndedIsValid(r: Result, max: nat, p: Parser, log: seq<Event>, data: string)
    requires Good(max, p) && Resumable(p, log) && r == Executed(max, p, log, data)
    ensures r.Exited? ==> Good(max, r.parser) && Resumable(r.parser, r.log)
    ensures r.Failed? ==> r.error != Ok
  {
    hide RunFrom, Good, Related, Resumable;
    EntryRelated(p, log);
    ExitIsIdle(max, p, Entry(p, log), Live(p.state), data, 0);
    RunKeeps(max, p, Entry(p, log), data, 0);
  }

  lemma ExecutedCount(max: nat, p: Parser, log: seq<Event>, data: string)
    requires Good(max, p)
    ensures
      var r := Executed(max, p, log, data);
      (r.Exited? ==> 0 < r.count <= |data|) && (r.Failed? ==> r.count < |data| && r.error != Ok)
  {
    hide RunFrom, Good;
    RunKeeps(max, p, Entry(p, log), data, 0);
  }
}
