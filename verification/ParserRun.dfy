/** Whole runs of the parser, as a fold of the one-byte step, and the callback contract: what the
    callbacks say does not depend on how the input was cut into buffers. */
module ParserRun {
  import opened Bytes
  import opened ParserTypes
  import opened ParserStep
  import opened ParserInvariant
  import opened ParserMarks

  // ----- Callbacks of one buffer -----

  /** The callbacks so far. While `open`, the last one is the run in progress. */
  datatype Tape = Tape(log: seq<Event>, open: bool)

  function Extend(log: seq<Event>, ch: char): seq<Event> {
    if log != [] && log[|log| - 1].Data?
    then log[..|log| - 1] + [Data(log[|log| - 1].kind, log[|log| - 1].bytes + [ch])]
    else log
  }

  function Apply(t: Tape, a: Action, ch: char): Tape {
    match a
    case Mark(k) => if t.open then t else Tape(t.log + [Data(k, "")], true)
    case Take(_) => Tape(Extend(t.log, ch), t.open)
    case Flush(_) => Tape(t.log, false)
    case Notify(e) => Tape(t.log + [e], t.open)
  }

  function ApplyAll(t: Tape, acts: seq<Action>, ch: char): Tape
    decreases |acts|
  {
    if acts == [] then t else ApplyAll(Apply(t, acts[0], ch), acts[1..], ch)
  }

  /** A run over a buffer ends by using it up, by the exit after an upgrade, or at a bad byte. Of the callbacks at a
      bad byte the run in progress is not delivered. */
  datatype Result =
    | Running(parser: Parser, tape: Tape)
    | Exited(count: nat, parser: Parser, log: seq<Event>)
    | Failed(count: nat, error: Errno, tape: Tape)

  /** The callbacks made when a call fails: all but the run in progress. */
  function Delivered(t: Tape): seq<Event> {
    if t.open && t.log != [] then t.log[..|t.log| - 1] else t.log
  }

  function RunFrom(max: nat, p: Parser, t: Tape, data: string, i: nat): Result
    requires i <= |data|
    decreases |data| - i
  {
    if i == |data| then Running(p, t)
    else match Step(max, p, data[i])
      case Fail(e, acts) => Failed(i, e, ApplyAll(t, acts, data[i]))
      case Exit(q, acts) => Exited(i + 1, q, ApplyAll(t, acts, data[i]).log)
      case Next(q, acts) => RunFrom(max, q, ApplyAll(t, acts, data[i]), data, i + 1)
  }

  /** The marks set at the start of a buffer. */
  function Entry(p: Parser, log: seq<Event>): Tape {
    match Live(p.state)
    case None => Tape(log, false)
    case Some(k) => Tape(log + [Data(k, "")], true)
  }

  /** One call of `http_parser_execute` on a non-empty buffer. */
  function Executed(max: nat, p: Parser, log: seq<Event>, data: string): Result {
    RunFrom(max, p, Entry(p, log), data, 0)
  }

  // ----- Merging adjacent data callbacks of one kind -----

  function Emit(m: seq<Event>, e: Event): seq<Event> {
    if e.Data? && m != [] && m[|m| - 1].Data? && m[|m| - 1].kind == e.kind
    then m[..|m| - 1] + [Data(e.kind, m[|m| - 1].bytes + e.bytes)]
    else m + [e]
  }

  function Merge(log: seq<Event>): seq<Event> {
    if log == [] then [] else Emit(Merge(log[..|log| - 1]), log[|log| - 1])
  }

  function EmitAll(m: seq<Event>, acts: seq<Action>, ch: char): seq<Event>
    decreases |acts|
  {
    if acts == [] then m
    else match acts[0]
      case Mark(k) => EmitAll(Emit(m, Data(k, "")), acts[1..], ch)
      case Take(k) => EmitAll(Emit(m, Data(k, [ch])), acts[1..], ch)
      case Flush(_) => EmitAll(m, acts[1..], ch)
      case Notify(e) => EmitAll(Emit(m, e), acts[1..], ch)
  }

  predicate EndsWith(log: seq<Event>, k: Kind) {
    log != [] && log[|log| - 1].Data? && log[|log| - 1].kind == k
  }

  lemma MergeSnoc(log: seq<Event>, e: Event)
    ensures Merge(log + [e]) == Emit(Merge(log), e)
  {
    assert (log + [e])[..|log|] == log;
  }

  lemma MergeEnds(log: seq<Event>, k: Kind)
    requires EndsWith(log, k)
    ensures EndsWith(Merge(log), k)
  {
  }

  lemma EmitEmpty(m: seq<Event>, k: Kind)
    requires EndsWith(m, k)
    ensures Emit(m, Data(k, "")) == m
  {
    assert m[|m| - 1].bytes + "" == m[|m| - 1].bytes;
  }

  lemma EmitTwice(m: seq<Event>, k: Kind, a: string, b: string)
    ensures Emit(Emit(m, Data(k, a)), Data(k, b)) == Emit(m, Data(k, a + b))
  {
    if EndsWith(m, k) {
      assert m[|m| - 1].bytes + a + b == m[|m| - 1].bytes + (a + b);
    }
  }

  lemma MergeExtend(log: seq<Event>, k: Kind, ch: char)
    requires EndsWith(log, k)
    ensures EndsWith(Extend(log, ch), k)
    ensures Merge(Extend(log, ch)) == Emit(Merge(log), Data(k, [ch]))
  {
    var init, last := log[..|log| - 1], log[|log| - 1];
    assert log == init + [last];
    MergeSnoc(init, last);
    MergeSnoc(init, Data(k, last.bytes + [ch]));
    EmitTwice(Merge(init), k, last.bytes, [ch]);
  }

  predicate TapeOk(t: Tape, live: Option<Kind>) {
    t.open == live.Some? && (live.Some? ==> EndsWith(t.log, live.value))
  }

  lemma {:induction false} ApplyMerged(t: Tape, live: Option<Kind>, taken: bool, acts: seq<Action>, ch: char)
    requires TapeOk(t, live) && Proper(live, taken, acts)
    ensures TapeOk(ApplyAll(t, acts, ch), After(live, acts))
    ensures Merge(ApplyAll(t, acts, ch).log) == EmitAll(Merge(t.log), acts, ch)
    decreases |acts|
  {
    if acts != [] {
      match acts[0]
      case Mark(k) =>
        if t.open { MergeEnds(t.log, k); EmitEmpty(Merge(t.log), k); } else { MergeSnoc(t.log, Data(k, "")); }
        ApplyMerged(Apply(t, acts[0], ch), Some(k), false, acts[1..], ch);
      case Take(k) =>
        MergeExtend(t.log, k, ch);
        ApplyMerged(Apply(t, acts[0], ch), live, true, acts[1..], ch);
      case Flush(k) => ApplyMerged(Apply(t, acts[0], ch), None, taken, acts[1..], ch);
      case Notify(e) =>
        MergeSnoc(t.log, e);
        ApplyMerged(Apply(t, acts[0], ch), None, taken, acts[1..], ch);
    }
  }

  // ----- Split invariance -----

  /** Equal records and equal merged callbacks; `shift` bytes were consumed before the second run. */
  predicate Same(r: Result, s: Result, shift: nat) {
    match r
    case Running(p, t) => s.Running? && s.parser == p && Merge(s.tape.log) == Merge(t.log)
    case Exited(n, p, log) => s.Exited? && n == s.count + shift && s.parser == p && Merge(s.log) == Merge(log)
    case Failed(n, e, t) =>
      s.Failed? && n == s.count + shift && s.error == e && Merge(s.tape.log) == Merge(t.log)
  }

  predicate Related(p: Parser, t: Tape, live: Option<Kind>) {
    TapeOk(t, live) && LiveOk(p.state, live)
  }

  predicate TapeFollows(t: Tape, live: Option<Kind>, o: Outcome, ch: char) {
    match o
    case Fail(_, acts) => Merge(ApplyAll(t, acts, ch).log) == EmitAll(Merge(t.log), acts, ch)
    case Exit(_, acts) => Merge(ApplyAll(t, acts, ch).log) == EmitAll(Merge(t.log), acts, ch)
    case Next(q, acts) =>
      Related(q, ApplyAll(t, acts, ch), After(live, acts))
      && Merge(ApplyAll(t, acts, ch).log) == EmitAll(Merge(t.log), acts, ch)
  }

  lemma NothingApplied(t: Tape, ch: char)
    ensures ApplyAll(t, [], ch) == t && EmitAll(Merge(t.log), [], ch) == Merge(t.log)
  {
  }

  lemma StepRelated(max: nat, p: Parser, t: Tape, live: Option<Kind>, ch: char)
    requires Related(p, t, live)
    ensures TapeFollows(t, live, Step(max, p, ch), ch)
  {
    StepActs(max, p, ch, live);
    hide Step, Merge, EmitAll, ApplyAll, Proper, After, LiveOk;
    var o := Step(max, p, ch);
    if o.actions == [] && o.Fail? {
      NothingApplied(t, ch);
    } else {
      ApplyMerged(t, live, false, o.actions, ch);
    }
  }

  /** Two runs over the same remaining bytes stay together, wherever their buffers started. */
  lemma {:induction false} Lockstep(max: nat, p: Parser, t: Tape, live: Option<Kind>, u: Tape, live': Option<Kind>,
                                    data: string, i: nat, data': string, shift: nat)
    requires shift <= i <= |data| && |data'| + shift == |data| && data[i..] == data'[i - shift..]
    requires Related(p, t, live) && Related(p, u, live') && Merge(t.log) == Merge(u.log)
    ensures Same(RunFrom(max, p, t, data, i), RunFrom(max, p, u, data', i - shift), shift)
    decreases |data| - i
  {
    hide Step, Merge, EmitAll, ApplyAll, Related, After;
    if i < |data| {
      var ch := data[i];
      assert data'[i - shift] == data'[i - shift..][0] == data[i..][0] == ch;
      assert data[i + 1..] == data[i..][1..] == data'[i - shift..][1..] == data'[i + 1 - shift..];
      StepRelated(max, p, t, live, ch);
      StepRelated(max, p, u, live', ch);
      var o := Step(max, p, ch);
      if o.Next? {
        var acts := o.actions;
        Lockstep(max, o.parser, ApplyAll(t, acts, ch), After(live, acts), ApplyAll(u, acts, ch), After(live', acts),
                 data, i + 1, data', shift);
      }
    }
  }

  /** A run over `a + b` is the run over `a`, continued. */
  lemma {:induction false} RunConcat(max: nat, p: Parser, t: Tape, a: string, b: string, i: nat)
    requires i <= |a|
    ensures
      match RunFrom(max, p, t, a, i)
      case Running(q, u) => RunFrom(max, p, t, a + b, i) == RunFrom(max, q, u, a + b, |a|)
      case r => RunFrom(max, p, t, a + b, i) == r
    decreases |a| - i
  {
    if i < |a| {
      hide Step;
      assert (a + b)[i] == a[i];
      var o := Step(max, p, a[i]);
      if o.Next? {
        RunConcat(max, o.parser, ApplyAll(t, o.actions, a[i]), a, b, i + 1);
      }
    }
  }

  /** What a run leaves open is what its state asks for. */
  lemma {:induction false} RunRelated(max: nat, p: Parser, t: Tape, live: Option<Kind>, data: string, i: nat)
      returns (live': Option<Kind>)
    requires i <= |data| && Related(p, t, live)
    ensures RunFrom(max, p, t, data, i).Running? ==>
      Related(RunFrom(max, p, t, data, i).parser, RunFrom(max, p, t, data, i).tape, live')
    decreases |data| - i
  {
    hide Step, Merge, EmitAll, ApplyAll, Related, After;
    live' := live;
    if i < |data| {
      StepRelated(max, p, t, live, data[i]);
      var o := Step(max, p, data[i]);
      if o.Next? {
        live' := RunRelated(max, o.parser, ApplyAll(t, o.actions, data[i]), After(live, o.actions), data, i + 1);
      }
    }
  }

  /** Between two calls: a state inside a run follows callbacks that end with that run. */
  predicate Resumable(p: Parser, log: seq<Event>) {
    Live(p.state).Some? ==> EndsWith(log, Live(p.state).value)
  }

  lemma EntryRelated(p: Parser, log: seq<Event>)
    requires Resumable(p, log)
    ensures Related(p, Entry(p, log), Live(p.state)) && Merge(Entry(p, log).log) == Merge(log)
  {
    if Live(p.state).Some? {
      var k := Live(p.state).value;
      MergeSnoc(log, Data(k, ""));
      MergeEnds(log, k);
      EmitEmpty(Merge(log), k);
    }
  }

  lemma RelatedResumes(p: Parser, t: Tape, live: Option<Kind>)
    requires Related(p, t, live)
    ensures Resumable(p, t.log)
  {
  }

  function Concat(bufs: seq<string>): string {
    if bufs == [] then "" else bufs[0] + Concat(bufs[1..])
  }

  function Shift(n: nat, r: Result): Result {
    match r
    case Running(_, _) => r
    case Exited(k, p, log) => Exited(n + k, p, log)
    case Failed(k, e, t) => Failed(n + k, e, t)
  }

  /** Calls on successive buffers, up to the first that does not use its buffer up. */
  function ExecutedAll(max: nat, p: Parser, log: seq<Event>, bufs: seq<string>): Result
    decreases |bufs|
  {
    if bufs == [] then Running(p, Tape(log, false))
    else match Executed(max, p, log, bufs[0])
      case Running(q, t) => Shift(|bufs[0]|, ExecutedAll(max, q, t.log, bufs[1..]))
      case r => r
  }

  /** Any partition into buffers gives the record, the merged callbacks, the byte count and the error
      of one call on the whole input. */
  lemma {:induction false} SplitInvariance(max: nat, p: Parser, log: seq<Event>, bufs: seq<string>)
    requires bufs != [] && Resumable(p, log)
    ensures Same(Executed(max, p, log, Concat(bufs)), ExecutedAll(max, p, log, bufs), 0)
    decreases |bufs|
  {
    hide Step, Merge, Related, Resumable, Live, Entry;
    var a, b := bufs[0], Concat(bufs[1..]);
    EntryRelated(p, log);
    RunConcat(max, p, Entry(p, log), a, b, 0);
    var r := Executed(max, p, log, a);
    if r.Running? {
      var live := RunRelated(max, p, Entry(p, log), Live(p.state), a, 0);
      RelatedResumes(r.parser, r.tape, live);
      EntryRelated(r.parser, r.tape.log);
      assert (a + b)[|a|..] == b;
      assert b[0..] == b;
      Lockstep(max, r.parser, r.tape, live, Entry(r.parser, r.tape.log), Live(r.parser.state), a + b, |a|, b, |a|);
      if bufs[1..] == [] {
      } else {
        SplitInvariance(max, r.parser, r.tape.log, bufs[1..]);
      }
    }
  }

  lemma {:induction false} RunKeeps(max: nat, p: Parser, t: Tape, data: string, i: nat)
    requires i <= |data| && Good(max, p)
    ensures
      match RunFrom(max, p, t, data, i)
      case Running(q, _) => Good(max, q)
      case Exited(n, q, _) => Good(max, q) && i < n <= |data|
      case Failed(n, e, _) => e != Ok && i <= n < |data|
    decreases |data| - i
  {
    if i < |data| {
      StepKeeps(max, p, data[i]);
      hide Step, Good;
      var o := Step(max, p, data[i]);
      if o.Next? {
        RunKeeps(max, o.parser, ApplyAll(t, o.actions, data[i]), data, i + 1);
      }
    }
  }
}
