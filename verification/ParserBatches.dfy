/** The batches of `http_parser_execute`: what its inner loops compute over a stretch of header or body
    bytes, and that a batch is a run of single steps unless it passes the header limit. */
module ParserBatches {
  import opened Bytes
  import opened ParserTypes
  import opened ParserStep
  import opened ParserInvariant
  import opened ParserMarks
  import opened ParserRun

  // ----- Which batch a byte is read in -----

  /** The start of a batch: its first byte, and the record and the callbacks before it. */
  datatype Batch = Batch(start: nat, parser: Parser, tape: Tape)

  /** A run, and the batch that its failing byte was read in. */
  datatype Run = Run(result: Result, batch: Option<Batch>)

  predicate InBatch(s: State) { s.HeaderField? || s.HeaderValue? }

  /** The batch of byte `i`; `b` is that of the byte before it. */
  function BatchAt(p: Parser, t: Tape, i: nat, b: Option<Batch>): Option<Batch> {
    if !InBatch(p.state) then None else if b.Some? then b else Some(Batch(i, p, t))
  }

  predicate StartsBy(b: Option<Batch>, n: nat) { b.Some? ==> b.value.start < n && InBatch(b.value.parser.state) }

  function FailingBatch(max: nat, p: Parser, t: Tape, data: string, i: nat, b: Option<Batch>): (c: Option<Batch>)
    requires i <= |data|
    ensures StartsBy(b, i + 1) ==> StartsBy(c, |data|)
    decreases |data| - i
  {
    if i == |data| then None
    else match Step(max, p, data[i])
      case Fail(_, _) => BatchAt(p, t, i, b)
      case Exit(_, _) => None
      case Next(q, acts) => FailingBatch(max, q, ApplyAll(t, acts, data[i]), data, i + 1, BatchAt(p, t, i, b))
  }

  function Watched(max: nat, p: Parser, t: Tape, data: string, i: nat, b: Option<Batch>): Run
    requires i <= |data|
  {
    Run(RunFrom(max, p, t, data, i), FailingBatch(max, p, t, data, i, b))
  }

  lemma WatchNext(max: nat, p: Parser, t: Tape, data: string, i: nat, b: Option<Batch>, q: Parser, acts: seq<Action>)
    requires i < |data| && Step(max, p, data[i]) == Next(q, acts)
    ensures Watched(max, p, t, data, i, b)
      == Watched(max, q, ApplyAll(t, acts, data[i]), data, i + 1, BatchAt(p, t, i, b))
  {
    hide Step, ApplyAll, BatchAt;
  }

  lemma WatchFail(max: nat, p: Parser, t: Tape, data: string, i: nat, b: Option<Batch>, e: Errno, acts: seq<Action>)
    requires i < |data| && Step(max, p, data[i]) == Fail(e, acts)
    ensures Watched(max, p, t, data, i, b) == Run(Failed(i, e, ApplyAll(t, acts, data[i])), BatchAt(p, t, i, b))
  {
    hide Step, ApplyAll, BatchAt;
  }

  /** The first byte of a batch. */
  lemma OpenBatch(max: nat, p: Parser, t: Tape, data: string, i: nat)
    requires i < |data| && InBatch(p.state)
    ensures Watched(max, p, t, data, i, None) == Watched(max, p, t, data, i, Some(Batch(i, p, t)))
  {
    hide Step, ApplyAll;
  }

  /** A batch that is over is forgotten at the next byte. */
  lemma CloseBatch(max: nat, p: Parser, t: Tape, data: string, i: nat, b: Option<Batch>)
    requires i <= |data| && (i < |data| ==> !InBatch(p.state))
    ensures Watched(max, p, t, data, i, b) == Watched(max, p, t, data, i, None)
  {
    hide Step, ApplyAll;
  }

  // ----- What the batched loops compute -----

  /** The record after the token characters `data[i..j]` of a field name. */
  function FieldFold(p: Parser, data: string, i: nat, j: nat): Parser
    requires i <= j <= |data| && forall k :: i <= k < j ==> IsToken(data[k])
    decreases j - i
  {
    if i == j then p else FieldFold(FieldLetter(p, data[i]), data, i + 1, j)
  }

  predicate ValueChar(ch: char) { ch != CR && ch != LF && IsHeaderChar(ch) }

  /** The record after the value bytes `data[i..j]`. */
  function ValueFold(p: Parser, data: string, i: nat, j: nat): Option<Parser>
    requires i <= j <= |data|
    decreases j - i
  {
    if i == j then Some(p)
    else if !ValueChar(data[i]) then None
    else match ValueLetter(p, data[i])
      case None => None
      case Some(q) => ValueFold(q, data, i + 1, j)
  }

  /** Where the loop over a value stops looking for anything: at the first byte read in `General`, or where it ends
      before that. */
  function GeneralFrom(p: Parser, data: string, i: nat): (g: nat)
    requires i <= |data|
    ensures i <= g <= |data| && ValueFold(p, data, i, g).Some?
    ensures forall k :: i <= k < g ==>
      ValueFold(p, data, i, k).Some? && !ValueFold(p, data, i, k).value.headerState.General?
    ensures ValueFold(p, data, i, g).value.headerState.General? || g == |data| || ValueFold(p, data, i, g + 1).None?
    decreases |data| - i
  {
    if i == |data| || p.headerState.General? || !ValueChar(data[i]) then i
    else match ValueLetter(p, data[i])
      case None => i
      case Some(q) =>
        var g := GeneralFrom(q, data, i + 1);
        assert forall k :: i < k <= |data| ==> ValueFold(p, data, i, k) == ValueFold(q, data, i + 1, k);
        g
  }

  /** From `g` on a value is read in stretches of `max` bytes, and the byte after each stretch is skipped. */
  predicate Inspected(max: nat, g: nat, k: nat)
    requires g <= k
  {
    (k - g) % (max + 1) != max
  }

  lemma Multiple(z: int, m: nat)
    ensures z >= 1 ==> z * m >= m
    ensures z <= -1 ==> z * m + m <= 0
  {
    if z >= 1 { assert z * m == (z - 1) * m + m; }
    if z <= -1 { assert z * m == (z + 1) * m - m; }
  }

  lemma Unique(q: int, m: nat, d: nat, z: int, r: nat)
    requires d < m && r < m && q * m + d == z * m + r
    ensures q == z && d == r
  {
    assert (z - q) * m == d - r;
    Multiple(z - q, m);
  }

  lemma Remainder(q: int, m: nat, d: nat, x: nat)
    requires d < m && x == q * m + d
    ensures x % m == d
  {
    Unique(q, m, d, x / m, x % m);
  }

  /** A stretch that starts at `from`: its `max` bytes are inspected, the next one is not. */
  lemma StretchInspected(max: nat, g: nat, from: nat, k: nat)
    requires g <= from <= k <= from + max && (from - g) % (max + 1) == 0
    ensures Inspected(max, g, k) <==> k < from + max
    ensures (from + max + 1 - g) % (max + 1) == 0
  {
    var m := max + 1;
    var q := (from - g) / m;
    Remainder(q, m, k - from, k - g);
    Remainder(q + 1, m, 0, from + m - g);
  }

  /** The first byte from `k` on that is inspected and is no value byte. */
  function FirstStop(max: nat, data: string, g: nat, k: nat): (n: nat)
    requires g <= k <= |data|
    ensures k <= n <= |data| && (n < |data| ==> Inspected(max, g, n) && !ValueChar(data[n]))
    ensures forall j :: k <= j < n && Inspected(max, g, j) ==> ValueChar(data[j])
    decreases |data| - k
  {
    if k == |data| || (Inspected(max, g, k) && !ValueChar(data[k])) then k else FirstStop(max, data, g, k + 1)
  }

  /** Where the loop over a value ends. */
  function ValueEnd(max: nat, p: Parser, data: string, i: nat): (n: nat)
    requires i <= |data|
    ensures i <= n <= |data|
  {
    var g := GeneralFrom(p, data, i);
    if ValueFold(p, data, i, g).value.headerState.General? then FirstStop(max, data, g, g) else g
  }

  /** The error of a value that ends at `n`: none at a line end or at the end of the buffer. */
  function EndError(data: string, n: nat): Errno
    requires n <= |data|
  {
    if n == |data| || data[n] == CR || data[n] == LF then Ok
    else if IsHeaderChar(data[n]) then InvalidContentLength
    else InvalidHeaderToken
  }

  /** An open tape with more bytes. */
  function TakeAll(t: Tape, s: string): Tape {
    if t.log != [] && t.log[|t.log| - 1].Data? then
      var last := t.log[|t.log| - 1];
      Tape(t.log[..|t.log| - 1] + [Data(last.kind, last.bytes + s)], t.open)
    else t
  }

  lemma TakeOne(t: Tape, k: Kind, ch: char)
    ensures ApplyAll(t, [Take(k)], ch) == TakeAll(t, [ch])
  {
    assert [Take(k)][1..] == [];
  }

  lemma TakeMore(t: Tape, k: Kind, data: string, i: nat, j: nat)
    requires i < j <= |data| && t.open && EndsWith(t.log, k)
    ensures TakeAll(TakeAll(t, [data[i]]), data[i + 1..j]) == TakeAll(t, data[i..j])
    ensures TakeAll(t, [data[i]]).open && EndsWith(TakeAll(t, [data[i]]).log, k)
  {
    assert [data[i]] + data[i + 1..j] == data[i..j];
    var last := t.log[|t.log| - 1];
    assert last.bytes + [data[i]] + data[i + 1..j] == last.bytes + data[i..j];
  }

  lemma TakeNone(t: Tape, data: string, i: nat)
    requires i <= |data|
    ensures TakeAll(t, data[i..i]) == t
  {
    assert data[i..i] == "";
    if t.log != [] && t.log[|t.log| - 1].Data? {
      var last := t.log[|t.log| - 1];
      assert last.bytes + "" == last.bytes;
      assert t.log[..|t.log| - 1] + [last] == t.log;
    }
  }

  lemma FieldStep(max: nat, p: Parser, ch: char)
    requires p.state.HeaderField? && IsToken(ch)
    ensures Step(max, p, ch) ==
      if p.nread + 1 > max then Fail(HeaderOverflow, [])
      else Next(FieldLetter(p, ch).(nread := p.nread + 1), [Take(HeaderFieldData)])
    ensures FieldLetter(p, ch).state.HeaderField? && FieldLetter(p, ch).nread == p.nread
  {
    hide FieldScan, IsToken, Token;
    var q := p.(nread := p.nread + 1);
    assert Dispatch(q, ch) == StepHeaders(q, ch) == FieldByte(q, ch) by {
      hide FieldByte, FieldLetter, FieldStart, StepRequestLine, StepVersion, StepStatusLine, StepBody;
    }
    assert FieldLetter(q, ch) == FieldLetter(p, ch).(nread := p.nread + 1);
  }

  lemma FieldCommutes(p: Parser, n: nat, data: string, i: nat, j: nat)
    requires i <= j <= |data| && forall k :: i <= k < j ==> IsToken(data[k])
    ensures FieldFold(p.(nread := n), data, i, j) == FieldFold(p, data, i, j).(nread := n)
    ensures FieldFold(p, data, i, j).nread == p.nread && FieldFold(p, data, i, j).state == p.state
    decreases j - i
  {
    hide FieldScan, IsToken, Token;
    if i < j {
      assert FieldLetter(p.(nread := n), data[i]) == FieldLetter(p, data[i]).(nread := n);
      FieldCommutes(FieldLetter(p, data[i]), n, data, i + 1, j);
    }
  }

  predicate Overflows(r: Result) { r.Failed? && r.error == HeaderOverflow }

  /** The run passes the header limit inside the batch `b`. */
  predicate PassesLimit(r: Run, b: Batch) { Overflows(r.result) && r.batch == Some(b) }

  /** A batch of name bytes is a run of single steps, unless it passes the header limit. */
  lemma {:induction false} FieldRun(max: nat, p: Parser, t: Tape, data: string, i: nat, j: nat, b: Batch)
    requires i <= j <= |data| && p.state.HeaderField? && t.open && EndsWith(t.log, HeaderFieldData)
    requires forall k :: i <= k < j ==> IsToken(data[k])
    ensures
      if p.nread + (j - i) <= max then
        Watched(max, p, t, data, i, Some(b))
        == Watched(max, FieldFold(p, data, i, j).(nread := p.nread + (j - i)), TakeAll(t, data[i..j]), data, j, Some(b))
      else i < j && p.nread <= max ==> PassesLimit(Watched(max, p, t, data, i, Some(b)), b)
    decreases j - i
  {
    hide Step, FieldLetter, IsToken, ApplyAll, Watched;
    if i == j {
      TakeNone(t, data, i);
      assert p.(nread := p.nread + 0) == p;
    } else {
      var ch := data[i];
      FieldStep(max, p, ch);
      if p.nread + 1 > max {
        WatchFail(max, p, t, data, i, Some(b), HeaderOverflow, []);
      } else {
        var q := FieldLetter(p, ch).(nread := p.nread + 1);
        WatchNext(max, p, t, data, i, Some(b), q, [Take(HeaderFieldData)]);
        TakeOne(t, HeaderFieldData, ch);
        TakeMore(t, HeaderFieldData, data, i, j);
        FieldRun(max, q, TakeAll(t, [ch]), data, i + 1, j, b);
        FieldCommutes(FieldLetter(p, ch), p.nread + 1, data, i + 1, j);
      }
    }
  }

  lemma ValueStep(max: nat, p: Parser, ch: char)
    requires p.state.HeaderValue?
    ensures Step(max, p, ch) ==
      if p.nread + 1 > max then Fail(HeaderOverflow, []) else ValueByte(p.(nread := p.nread + 1), ch)
  {
    hide ValueByte;
    var q := p.(nread := p.nread + 1);
    assert Dispatch(q, ch) == StepHeaders(q, ch) == ValueByte(q, ch);
  }

  lemma ValueLetterCommutes(p: Parser, n: nat, ch: char)
    ensures
      match ValueLetter(p, ch)
      case None => ValueLetter(p.(nread := n), ch).None?
      case Some(q) =>
        ValueLetter(p.(nread := n), ch) == Some(q.(nread := n)) && q.nread == p.nread && q.state == p.state
  {
    hide ValueScan, Commit;
  }

  lemma ValueCommutes(p: Parser, n: nat, data: string, i: nat, j: nat)
    requires i <= j <= |data|
    ensures
      match ValueFold(p, data, i, j)
      case None => ValueFold(p.(nread := n), data, i, j).None?
      case Some(q) =>
        ValueFold(p.(nread := n), data, i, j) == Some(q.(nread := n)) && q.nread == p.nread && q.state == p.state
    decreases j - i
  {
    hide ValueLetter, IsHeaderChar;
    if i < j {
      ValueLetterCommutes(p, n, data[i]);
      if ValueLetter(p, data[i]).Some? {
        ValueCommutes(ValueLetter(p, data[i]).value, n, data, i + 1, j);
      }
    }
  }

  lemma {:induction false} ValueRun(max: nat, p: Parser, t: Tape, data: string, i: nat, j: nat, b: Batch)
    requires i <= j <= |data| && p.state.HeaderValue? && t.open && EndsWith(t.log, HeaderValueData)
    requires ValueFold(p, data, i, j).Some?
    ensures
      if p.nread + (j - i) <= max then
        var q := ValueFold(p, data, i, j).value.(nread := p.nread + (j - i));
        Watched(max, p, t, data, i, Some(b)) == Watched(max, q, TakeAll(t, data[i..j]), data, j, Some(b))
      else i < j && p.nread <= max ==> PassesLimit(Watched(max, p, t, data, i, Some(b)), b)
    decreases j - i
  {
    hide Step, ValueLetter, IsHeaderChar, ApplyAll, Watched;
    if i == j {
      TakeNone(t, data, i);
      assert p.(nread := p.nread + 0) == p;
    } else {
      var ch := data[i];
      ValueStep(max, p, ch);
      if p.nread + 1 > max {
        WatchFail(max, p, t, data, i, Some(b), HeaderOverflow, []);
      } else {
        ValueLetterCommutes(p, p.nread + 1, ch);
        var q := ValueLetter(p, ch).value;
        WatchNext(max, p, t, data, i, Some(b), q.(nread := p.nread + 1), [Take(HeaderValueData)]);
        TakeOne(t, HeaderValueData, ch);
        TakeMore(t, HeaderValueData, data, i, j);
        ValueCommutes(q, p.nread + 1, data, i + 1, j);
        ValueRun(max, q.(nread := p.nread + 1), TakeAll(t, [ch]), data, i + 1, j, b);
      }
    }
  }

  lemma {:induction false} FieldFoldGood(max: nat, p: Parser, data: string, i: nat, j: nat)
    requires i <= j <= |data| && Good(max, p) && p.state.HeaderField? && forall k :: i <= k < j ==> IsToken(data[k])
    ensures Good(max, FieldFold(p, data, i, j)) && FieldFold(p, data, i, j).state.HeaderField?
    decreases j - i
  {
    hide Good, FieldLetter, IsToken;
    if i < j {
      FieldByteKeeps(max, p, data[i]);
      FieldFoldGood(max, FieldLetter(p, data[i]), data, i + 1, j);
    }
  }

  lemma {:induction false} ValueFoldGood(max: nat, p: Parser, data: string, i: nat, j: nat)
    requires i <= j <= |data| && Good(max, p) && p.state.HeaderValue? && ValueFold(p, data, i, j).Some?
    ensures Good(max, ValueFold(p, data, i, j).value) && ValueFold(p, data, i, j).value.state.HeaderValue?
    decreases j - i
  {
    hide Good, ValueLetter, IsHeaderChar;
    if i < j {
      ValueLetterKeeps(max, p, data[i]);
      ValueFoldGood(max, ValueLetter(p, data[i]).value, data, i + 1, j);
    }
  }

  lemma TakeAllRelated(p: Parser, t: Tape, k: Kind, s: string)
    requires t.open && EndsWith(t.log, k) && Live(p.state) == Some(k)
    ensures Related(p, TakeAll(t, s), Some(k))
  {
  }

  /** A batch of a field name: where the run stands after it. */
  lemma FieldBatch(r: Run, max: nat, p: Parser, t: Tape, data: string, i: nat, j: nat)
    requires i <= j <= |data| && i < |data| && p.state.HeaderField? && t.open && EndsWith(t.log, HeaderFieldData)
    requires Good(max, p) && p.nread <= max
    requires r == Watched(max, p, t, data, i, None)
    requires forall k :: i <= k < j ==> IsToken(data[k])
    ensures
      var q, b := FieldFold(p, data, i, j).(nread := p.nread + (j - i)), Batch(i, p, t);
      if p.nread + (j - i) > max then PassesLimit(r, b)
      else r == Watched(max, q, TakeAll(t, data[i..j]), data, j, Some(b))
           && Good(max, q) && q.state.HeaderField? && Related(q, TakeAll(t, data[i..j]), Some(HeaderFieldData))
  {
    hide Watched, Good, FieldFold, IsToken, TakeAll, Related;
    OpenBatch(max, p, t, data, i);
    FieldRun(max, p, t, data, i, j, Batch(i, p, t));
    if p.nread + (j - i) <= max {
      FieldFoldGood(max, p, data, i, j);
      CountKeeps(max, FieldFold(p, data, i, j), p.nread + (j - i));
      TakeAllRelated(FieldFold(p, data, i, j).(nread := p.nread + (j - i)), t, HeaderFieldData, data[i..j]);
    }
  }

  /** A batch of value bytes: where the run stands after it. */
  lemma ValueBatch(r: Run, max: nat, p: Parser, t: Tape, data: string, i: nat, j: nat)
    requires i <= j <= |data| && i < |data| && p.state.HeaderValue? && t.open && EndsWith(t.log, HeaderValueData)
    requires Good(max, p) && p.nread <= max
    requires r == Watched(max, p, t, data, i, None) && ValueFold(p, data, i, j).Some?
    ensures
      var q, b := ValueFold(p, data, i, j).value.(nread := p.nread + (j - i)), Batch(i, p, t);
      if p.nread + (j - i) > max then PassesLimit(r, b)
      else r == Watched(max, q, TakeAll(t, data[i..j]), data, j, Some(b))
           && Good(max, q) && q.state.HeaderValue? && Related(q, TakeAll(t, data[i..j]), Some(HeaderValueData))
  {
    hide Watched, Good, ValueFold, TakeAll, Related;
    OpenBatch(max, p, t, data, i);
    ValueRun(max, p, t, data, i, j, Batch(i, p, t));
    if p.nread + (j - i) <= max {
      ValueFoldGood(max, p, data, i, j);
      var q := ValueFold(p, data, i, j).value;
      CountKeeps(max, q, p.nread + (j - i));
      TakeAllRelated(q.(nread := p.nread + (j - i)), t, HeaderValueData, data[i..j]);
    }
  }

  lemma FieldEnd(max: nat, p: Parser, ch: char)
    requires p.state.HeaderField? && !IsToken(ch)
    ensures Step(max, p, ch) ==
      if p.nread + 1 > max then Fail(HeaderOverflow, [])
      else if ch == ':' then Next(p.(nread := p.nread + 1, state := HeaderValueDiscardWs), [Flush(HeaderFieldData)])
      else Fail(InvalidHeaderToken, [])
  {
    var q := p.(nread := p.nread + 1);
    assert Dispatch(q, ch) == StepHeaders(q, ch) == FieldByte(q, ch) by {
      hide FieldByte, FieldLetter, FieldStart, StepRequestLine, StepVersion, StepStatusLine, StepBody;
    }
    hide FieldLetter, IsToken, Dispatch;
  }

  lemma ApplyFlush(t: Tape, k: Kind, ch: char)
    ensures ApplyAll(t, [Flush(k)], ch) == Tape(t.log, false)
  {
    assert [Flush(k)][1..] == [];
  }

  /** One more value byte at the end of a batch. */
  lemma {:induction false} ValueSnoc(p: Parser, data: string, i: nat, j: nat)
    requires i <= j < |data| && ValueFold(p, data, i, j).Some?
    ensures ValueFold(p, data, i, j + 1)
      == (if ValueChar(data[j]) then ValueLetter(ValueFold(p, data, i, j).value, data[j]) else None)
    decreases j - i
  {
    hide ValueLetter, IsHeaderChar;
    if i < j {
      ValueSnoc(ValueLetter(p, data[i]).value, data, i + 1, j);
    } else if ValueChar(data[j]) && ValueLetter(p, data[j]).Some? {
      assert ValueFold(ValueLetter(p, data[j]).value, data, j + 1, j + 1) == ValueLetter(p, data[j]);
    }
  }

  lemma {:induction false} FieldSnoc(p: Parser, data: string, i: nat, j: nat)
    requires i <= j < |data| && forall k :: i <= k < j + 1 ==> IsToken(data[k])
    ensures FieldFold(p, data, i, j + 1) == FieldLetter(FieldFold(p, data, i, j), data[j])
    decreases j - i
  {
    hide FieldLetter, IsToken;
    if i < j {
      FieldSnoc(FieldLetter(p, data[i]), data, i + 1, j);
    } else {
      assert FieldFold(FieldLetter(p, data[j]), data, j + 1, j + 1) == FieldLetter(p, data[j]);
    }
  }

  lemma ValueLetterFrame(p: Parser, ch: char)
    ensures
      match ValueLetter(p, ch)
      case None => true
      case Some(q) =>
        q == p.(headerState := q.headerState, index := q.index, flags := q.flags, contentLength := q.contentLength)
  {
    hide ValueScan, Commit;
  }

  /** A value that nothing is looked for in keeps its record. */
  lemma GeneralStays(p: Parser, ch: char)
    ensures p.headerState.General? ==> ValueLetter(p, ch) == Some(p)
    ensures p.headerState.General? && IsToken(ch) ==> FieldLetter(p, ch) == p
  {
    hide Lower;
  }

  // ----- Body bytes -----

  function TakeBody(t: Tape, s: string): Tape {
    if t.open then TakeAll(t, s) else Tape(t.log + [Data(Body, s)], true)
  }

  lemma BodyStep(max: nat, p: Parser, ch: char)
    requires (p.state.BodyIdentity? || p.state.ChunkData?) && 1 < p.contentLength
    ensures Step(max, p, ch) == Next(p.(contentLength := p.contentLength - 1), [Mark(Body), Take(Body)])
  {
    assert Dispatch(p, ch) == StepBody(p, ch);
  }

  lemma TakeBodyOne(t: Tape, ch: char)
    requires t.open ==> EndsWith(t.log, Body)
    ensures ApplyAll(t, [Mark(Body), Take(Body)], ch) == TakeBody(t, [ch])
    ensures TakeBody(t, [ch]).open && EndsWith(TakeBody(t, [ch]).log, Body)
  {
    assert [Mark(Body), Take(Body)][1..] == [Take(Body)];
    TakeOne(Apply(t, Mark(Body), ch), Body, ch);
    if !t.open {
      var u := Apply(t, Mark(Body), ch);
      assert u.log[..|u.log| - 1] == t.log;
      assert "" + [ch] == [ch];
    }
  }

  lemma TakeBodyMore(t: Tape, data: string, i: nat, j: nat)
    requires i < j <= |data| && (t.open ==> EndsWith(t.log, Body))
    ensures TakeAll(TakeBody(t, [data[i]]), data[i + 1..j]) == TakeBody(t, data[i..j])
  {
    if t.open {
      TakeMore(t, Body, data, i, j);
    } else {
      assert [data[i]] + data[i + 1..j] == data[i..j];
      var u := TakeBody(t, [data[i]]);
      assert u.log[..|u.log| - 1] == t.log;
    }
  }

  /** Body bytes before the last of a body or chunk. */
  lemma {:induction false} BodyRun(max: nat, p: Parser, t: Tape, data: string, i: nat, j: nat)
    requires i < j <= |data| && (p.state.BodyIdentity? || p.state.ChunkData?)
    requires j - i < p.contentLength && (t.open ==> EndsWith(t.log, Body))
    ensures Watched(max, p, t, data, i, None)
      == Watched(max, p.(contentLength := p.contentLength - (j - i)), TakeBody(t, data[i..j]), data, j, None)
    decreases j - i
  {
    hide Step, ApplyAll, TakeBody, TakeAll, Watched;
    BodyStep(max, p, data[i]);
    WatchNext(max, p, t, data, i, None, p.(contentLength := p.contentLength - 1), [Mark(Body), Take(Body)]);
    TakeBodyOne(t, data[i]);
    TakeBodyMore(t, data, i, j);
    var q, u := p.(contentLength := p.contentLength - 1), TakeBody(t, [data[i]]);
    if i + 1 == j {
      TakeNone(u, data, j);
    } else {
      BodyRun(max, q, u, data, i + 1, j);
      assert TakeBody(u, data[i + 1..j]) == TakeAll(u, data[i + 1..j]) by { OpenBody(u, data[i + 1..j]); }
    }
  }

  lemma OpenBody(t: Tape, s: string)
    requires t.open
    ensures TakeBody(t, s) == TakeAll(t, s)
  {
  }

  /** Reading to the end of the connection takes every byte. */
  lemma {:induction false} EofRun(max: nat, p: Parser, t: Tape, data: string, i: nat)
    requires i < |data| && p.state.BodyIdentityEof? && (t.open ==> EndsWith(t.log, Body))
    ensures Watched(max, p, t, data, i, None) == Run(Running(p, TakeBody(t, data[i..])), None)
    decreases |data| - i
  {
    assert Step(max, p, data[i]) == Next(p, [Mark(Body), Take(Body)]);
    hide Step, ApplyAll, TakeBody, TakeAll;
    WatchNext(max, p, t, data, i, None, p, [Mark(Body), Take(Body)]);
    TakeBodyOne(t, data[i]);
    TakeBodyMore(t, data, i, |data|);
    var u := TakeBody(t, [data[i]]);
    if i + 1 == |data| {
      TakeNone(u, data, |data|);
      assert data[|data|..] == data[|data|..|data|];
    } else {
      EofRun(max, p, u, data, i + 1);
      OpenBody(u, data[i + 1..]);
    }
    assert data[i..] == data[i..|data|] && data[i + 1..] == data[i + 1..|data|];
  }
}
