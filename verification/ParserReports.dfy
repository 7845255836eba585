/** What a call reports. A batch checks the header limit at its end: a run that passes the limit inside a batch is
    reported where the batch ends, and with what the batch ran into. */
module ParserReports {
  import opened Bytes
  import opened ParserTypes
  import opened ParserStep
  import opened ParserInvariant
  import opened ParserMarks
  import opened ParserRun
  import opened ParserBatches
  import opened ParserProgress

  /** The end of the token characters from `i` on. */
  function NameEnd(data: string, i: nat): (n: nat)
    requires i <= |data|
    ensures i <= n <= |data| && (n < |data| ==> !IsToken(data[n]))
    ensures forall k :: i <= k < n ==> IsToken(data[k])
    decreases |data| - i
  {
    if i == |data| || !IsToken(data[i]) then i else NameEnd(data, i + 1)
  }

  /** The report of a call whose run passes the header limit in the batch `b`. At the end of the buffer the position
      has gone back by one. At a carriage return the value has been delivered before the limit is checked. */
  function LimitReport(max: nat, b: Batch, data: string): Result
    requires b.start < |data|
  {
    if b.parser.nread + 1 > max then Failed(b.start, HeaderOverflow, b.tape)
    else if b.parser.state.HeaderField? then
      var n := NameEnd(data, b.start);
      Failed(if n == |data| then n - 1 else n, HeaderOverflow, b.tape)
    else
      var n := ValueEnd(max, b.parser, data, b.start);
      var e := EndError(data, n);
      if !e.Ok? then Failed(n, e, b.tape)
      else if n == |data| then Failed(n - 1, HeaderOverflow, b.tape)
      else if data[n] == CR then Failed(n, HeaderOverflow, Tape(TakeAll(b.tape, data[b.start..n]).log, false))
      else Failed(n, HeaderOverflow, b.tape)
  }

  function Answer(max: nat, r: Run, data: string): Result {
    if Overflows(r.result) && r.batch.Some? && r.batch.value.start < |data|
    then LimitReport(max, r.batch.value, data)
    else r.result
  }

  /** One call of `http_parser_execute` on a non-empty buffer, as its caller sees it. */
  function Reported(max: nat, p: Parser, log: seq<Event>, data: string): Result {
    Answer(max, Watched(max, p, Entry(p, log), data, 0, None), data)
  }

  lemma FirstByteReport(max: nat, b: Batch, data: string)
    requires b.start < |data| && b.parser.nread + 1 > max
    ensures LimitReport(max, b, data) == Failed(b.start, HeaderOverflow, b.tape)
  {
    hide ValueEnd, NameEnd, EndError;
  }

  lemma NameReport(max: nat, b: Batch, data: string)
    requires b.start < |data| && b.parser.state.HeaderField? && b.parser.nread + 1 <= max
    ensures
      var n := NameEnd(data, b.start);
      LimitReport(max, b, data) == Failed(if n == |data| then n - 1 else n, HeaderOverflow, b.tape)
  {
    hide NameEnd, ValueEnd;
  }

  lemma ValueReport(max: nat, b: Batch, data: string)
    requires b.start < |data| && b.parser.state.HeaderValue? && b.parser.nread + 1 <= max
    ensures
      var n := ValueEnd(max, b.parser, data, b.start);
      var a := LimitReport(max, b, data);
      a.Failed? && a.count == (if n == |data| then n - 1 else n)
      && a.error == (if EndError(data, n).Ok? then HeaderOverflow else EndError(data, n))
      && (if n < |data| && data[n] == CR then Delivered(a.tape) == TakeAll(b.tape, data[b.start..n]).log
          else a.tape == b.tape)
  {
    hide ValueEnd, NameEnd, IsHeaderChar, TakeAll;
  }

  lemma NameEndIs(data: string, i: nat, j: nat)
    requires i <= j <= |data| && (j < |data| ==> !IsToken(data[j])) && forall k :: i <= k < j ==> IsToken(data[k])
    ensures NameEnd(data, i) == j
  {
    hide IsToken;
    var n := NameEnd(data, i);
    assert !(n < j) && !(j < n);
  }

  /** One step of the search for the general state, and of the search for the end. */
  lemma GeneralIs(p: Parser, data: string, i: nat)
    requires i <= |data|
    ensures i == |data| || p.headerState.General? || !ValueChar(data[i]) || ValueLetter(p, data[i]).None? ==>
      GeneralFrom(p, data, i) == i && ValueFold(p, data, i, i) == Some(p)
    ensures i < |data| && !p.headerState.General? && ValueChar(data[i]) && ValueLetter(p, data[i]).Some? ==>
      GeneralFrom(p, data, i) == GeneralFrom(ValueLetter(p, data[i]).value, data, i + 1)
  {
    hide ValueLetter, IsHeaderChar;
  }

  lemma StopIs(max: nat, data: string, g: nat, k: nat)
    requires g <= k <= |data|
    ensures k == |data| || (Inspected(max, g, k) && !ValueChar(data[k])) ==> FirstStop(max, data, g, k) == k
    ensures k < |data| && !(Inspected(max, g, k) && !ValueChar(data[k])) ==>
      FirstStop(max, data, g, k) == FirstStop(max, data, g, k + 1)
    ensures k < |data| && (k - g) % (max + 1) == 0 && 1 <= max ==> Inspected(max, g, k)
  {
  }

  lemma {:induction false} GeneralCommutes(p: Parser, c: nat, data: string, i: nat)
    requires i <= |data|
    ensures GeneralFrom(p.(nread := c), data, i) == GeneralFrom(p, data, i)
    decreases |data| - i
  {
    hide ValueLetter, IsHeaderChar, ValueFold;
    if i < |data| {
      ValueLetterCommutes(p, c, data[i]);
      if ValueLetter(p, data[i]).Some? { GeneralCommutes(ValueLetter(p, data[i]).value, c, data, i + 1); }
    }
  }

  /** The count does not matter to where a value ends. */
  lemma ValueEndCommutes(max: nat, p: Parser, c: nat, data: string, i: nat)
    requires i <= |data|
    ensures ValueEnd(max, p.(nread := c), data, i) == ValueEnd(max, p, data, i)
  {
    hide GeneralFrom, ValueFold, FirstStop;
    GeneralCommutes(p, c, data, i);
    ValueCommutes(p, c, data, i, GeneralFrom(p, data, i));
  }

  // ----- When the limit is reported -----

  predicate BadByte(ch: char) { ch != CR && ch != LF && !IsHeaderChar(ch) }

  /** The loop over a value runs into a byte it refuses. As long as something is looked for it inspects every byte;
      from the index `g` at which the value is `General`, only those with `(k - g) % (max + 1) != max`. */
  ghost predicate MeetsBadByte(max: nat, p: Parser, data: string, i: nat)
    requires i <= |data|
  {
    var g := GeneralFrom(p, data, i);
    if ValueFold(p, data, i, g).value.headerState.General? then
      exists n :: g <= n < |data| && Inspected(max, g, n) && BadByte(data[n])
        && forall k :: g <= k < n && Inspected(max, g, k) ==> ValueChar(data[k])
    else g < |data| && data[g] != CR && data[g] != LF
  }

  lemma MeetsExactly(max: nat, p: Parser, data: string, i: nat)
    requires i <= |data|
    ensures MeetsBadByte(max, p, data, i) <==> !EndError(data, ValueEnd(max, p, data, i)).Ok?
  {
    hide GeneralFrom, ValueFold, FirstStop, Inspected, IsHeaderChar;
    var g := GeneralFrom(p, data, i);
    if ValueFold(p, data, i, g).value.headerState.General? {
      var n := FirstStop(max, data, g, g);
      if MeetsBadByte(max, p, data, i) {
        var k :| g <= k < |data| && Inspected(max, g, k) && BadByte(data[k])
          && forall l :: g <= l < k && Inspected(max, g, l) ==> ValueChar(data[l]);
        assert !(k < n) && !(n < k);
      }
    }
  }

  /** A call whose run passes the header limit says so exactly when the value it passes it in, if it is one and has
      room for a byte, does not run into a bad byte. */
  lemma OverflowExactly(max: nat, p: Parser, log: seq<Event>, data: string)
    requires Overflows(Executed(max, p, log, data))
    ensures
      var b := FailingBatch(max, p, Entry(p, log), data, 0, None);
      Overflows(Reported(max, p, log, data)) <==>
      !(b.Some? && b.value.parser.state.HeaderValue? && b.value.parser.nread < max
        && MeetsBadByte(max, b.value.parser, data, b.value.start))
  {
    hide RunFrom, FailingBatch, ValueEnd, IsHeaderChar, MeetsBadByte, NameEnd, Entry, TakeAll;
    var b := FailingBatch(max, p, Entry(p, log), data, 0, None);
    if b.Some? && b.value.parser.state.HeaderValue? { MeetsExactly(max, b.value.parser, data, b.value.start); }
  }

  // ----- Calls that do not pass the limit -----

  /** Every other call reports its run. */
  lemma ReportsItsRun(max: nat, p: Parser, log: seq<Event>, data: string)
    requires !Overflows(Executed(max, p, log, data))
    ensures Reported(max, p, log, data) == Executed(max, p, log, data)
  {
    hide RunFrom, FailingBatch, Entry;
  }

  /** A call that passes the limit fails, at a byte of its buffer. */
  lemma LimitFails(max: nat, b: Batch, data: string)
    requires b.start < |data|
    ensures var a := LimitReport(max, b, data); a.Failed? && a.count < |data| && a.error != Ok
  {
    hide NameEnd, ValueEnd, IsHeaderChar, TakeAll;
  }

  lemma ReportIsValid(max: nat, p: Parser, log: seq<Event>, data: string)
    requires Good(max, p) && Resumable(p, log)
    ensures
      match Reported(max, p, log, data)
      case Running(q, t) => Reported(max, p, log, data) == Executed(max, p, log, data) && Good(max, q)
        && Resumable(q, t.log)
      case Exited(n, q, l) => 0 < n <= |data| && Good(max, q) && Resumable(q, l)
      case Failed(n, e, _) => n < |data| && e != Ok
  {
    hide RunFrom, FailingBatch, Good, Resumable, Entry, LimitReport, Related;
    var r := Executed(max, p, log, data);
    EndedIsValid(r, max, p, log, data);
    ExecutedCount(max, p, log, data);
    RunKeeps(max, p, Entry(p, log), data, 0);
    EntryRelated(p, log);
    var live := RunRelated(max, p, Entry(p, log), Live(p.state), data, 0);
    if r.Running? { RelatedResumes(r.parser, r.tape, live); }
    var b := FailingBatch(max, p, Entry(p, log), data, 0, None);
    if b.Some? { LimitFails(max, b.value, data); }
  }

  // ----- Successive calls -----

  /** Calls on successive buffers, each on a whole buffer, up to the first that fails or leaves bytes unread. After an
      upgrade at the very end of a buffer the caller goes on with the next one. */
  function Fed(max: nat, p: Parser, log: seq<Event>, bufs: seq<string>): Result
    decreases |bufs|
  {
    if bufs == [] then Running(p, Tape(log, false))
    else match Reported(max, p, log, bufs[0])
      case Running(q, t) => Shift(|bufs[0]|, Fed(max, q, t.log, bufs[1..]))
      case Exited(n, q, l) =>
        if n == |bufs[0]| && |bufs| > 1 then Shift(n, Fed(max, q, l, bufs[1..])) else Exited(n, q, l)
      case r => r
  }

  /** A buffer other than the last ends after `n` bytes. */
  predicate CutAt(bufs: seq<string>, n: nat)
    decreases |bufs|
  {
    |bufs| > 1 && (n == |bufs[0]| || (n > |bufs[0]| && CutAt(bufs[1..], n - |bufs[0]|)))
  }

  /** Whatever the cut, the calls say what one call on the whole input says, unless a header passes the limit or the
      connection is upgraded just where a buffer ends. */
  lemma FedIsOneCall(max: nat, p: Parser, log: seq<Event>, bufs: seq<string>)
    requires bufs != [] && Good(max, p) && Resumable(p, log)
    ensures
      var r := Executed(max, p, log, Concat(bufs));
      if Overflows(r) then Fed(max, p, log, bufs).Failed?
      else (r.Exited? && CutAt(bufs, r.count)) || Same(r, Fed(max, p, log, bufs), 0)
  {
    hide Executed, Good, Resumable, Merge, Fed, CutAt;
    SplitInvariance(max, p, log, bufs);
    FedFollows(max, p, log, bufs);
  }

  lemma {:induction false} FedFollows(max: nat, p: Parser, log: seq<Event>, bufs: seq<string>)
    requires Good(max, p) && Resumable(p, log)
    ensures
      var all := ExecutedAll(max, p, log, bufs);
      if Overflows(all) then Fed(max, p, log, bufs).Failed?
      else (all.Exited? && CutAt(bufs, all.count)) || Fed(max, p, log, bufs) == all
    decreases |bufs|
  {
    hide Executed, Good, Resumable, Reported;
    if bufs != [] {
      ReportIsValid(max, p, log, bufs[0]);
      var r := Executed(max, p, log, bufs[0]);
      if !Overflows(r) {
        ReportsItsRun(max, p, log, bufs[0]);
        if r.Running? { FedFollows(max, r.parser, r.tape.log, bufs[1..]); }
      } else {
        OverflowIsReported(max, p, log, bufs[0]);
      }
    }
  }

  lemma OverflowIsReported(max: nat, p: Parser, log: seq<Event>, data: string)
    requires Overflows(Executed(max, p, log, data))
    ensures Reported(max, p, log, data).Failed?
  {
    hide RunFrom, FailingBatch, Entry, LimitReport;
    var b := FailingBatch(max, p, Entry(p, log), data, 0, None);
    if b.Some? { LimitFails(max, b.value, data); }
  }
}
