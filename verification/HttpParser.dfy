/** `http_parser_execute` as it is written: loops that run ahead over header and body bytes, marks that
    turn positions into callbacks, and counters that are checked after a batch. Every call is proved
    equal to the byte-at-a-time run of `ParserRun`. */
module HttpParsers {
  import opened Bytes
  import opened ParserTypes
  import opened ParserStep
  import opened ParserInvariant
  import opened ParserMarks
  import opened ParserRun
  import opened ParserBatches
  import opened ParserProgress
  import opened ParserReports

  /** `header_field_mark`, `header_value_mark`, `url_mark`, `body_mark` and `status_mark`; an absent
      key is a null mark. */
  type Marks = map<Kind, nat>

  /** Only the mark of the open run is set, inside the buffer. */
  predicate MarksAre(marks: Marks, live: Option<Kind>, i: nat) {
    match live
    case None => marks == map[]
    case Some(k) => marks.Keys == {k} && marks[k] <= i
  }

  /** The callbacks made, and the run that the mark stands for. */
  function TapeOf(log: seq<Event>, marks: Marks, live: Option<Kind>, data: string, i: nat): Tape
    requires i <= |data| && MarksAre(marks, live, i)
  {
    match live
    case None => Tape(log, false)
    case Some(k) => Tape(log + [Data(k, data[marks[k]..i])], true)
  }

  lemma TapeGrows(log: seq<Event>, marks: Marks, k: Kind, data: string, i: nat, j: nat)
    requires i <= j <= |data| && MarksAre(marks, Some(k), i)
    ensures TapeOf(log, marks, Some(k), data, j) == TakeAll(TapeOf(log, marks, Some(k), data, i), data[i..j])
    ensures TapeOf(log, marks, Some(k), data, i).open && EndsWith(TapeOf(log, marks, Some(k), data, i).log, k)
  {
    assert data[marks[k]..j] == data[marks[k]..i] + data[i..j];
    assert (log + [Data(k, data[marks[k]..i])])[..|log|] == log;
  }

  lemma TapeTakes(log: seq<Event>, marks: Marks, k: Kind, data: string, i: nat)
    requires i < |data| && MarksAre(marks, Some(k), i)
    ensures TapeOf(log, marks, Some(k), data, i + 1) == Apply(TapeOf(log, marks, Some(k), data, i), Take(k), data[i])
  {
    TapeGrows(log, marks, k, data, i, i + 1);
    assert data[i..i + 1] == [data[i]];
  }

  /** A body mark set now, unless it is set already, and the bytes read since. */
  lemma BodyTapeGrows(log: seq<Event>, marks: Marks, live: Option<Kind>, data: string, i: nat, j: nat)
    requires i < j <= |data| && MarksAre(marks, live, i) && (live.None? || live == Some(Body))
    ensures
      var marks' := if Body in marks then marks else marks[Body := i];
      MarksAre(marks', Some(Body), i)
      && TapeOf(log, marks', Some(Body), data, j) == TakeBody(TapeOf(log, marks, live, data, i), data[i..j])
    ensures TapeOf(log, marks, live, data, i).open ==> EndsWith(TapeOf(log, marks, live, data, i).log, Body)
  {
    if live.Some? { TapeGrows(log, marks, Body, data, i, j); }
  }

  /** The states in which the end of the connection is no error. */
  predicate AtStart(s: State) { s.Dead? || s.StartReqOrRes? || s.StartRes? || s.StartReq? }

  lemma AllKinds(live: Option<Kind>)
    ensures live.Some? ==>
      var k := live.value;
      k == HeaderFieldData || k == HeaderValueData || k == Url || k == Body || k == Status
  {
  }

  /** Of the tape of a call only the callbacks made are delivered when it fails. */
  lemma DeliveredTape(log: seq<Event>, marks: Marks, live: Option<Kind>, data: string, i: nat)
    requires i <= |data| && MarksAre(marks, live, i)
    ensures Delivered(TapeOf(log, marks, live, data, i)) == log
  {
  }

  class HttpParser {
    const max: nat
    var role: Role
    var flags: Flags
    var state: State
    var headerState: HeaderState
    var index: nat
    var usesTE: bool
    var nread: nat
    var contentLength: nat
    var major: nat
    var minor: nat
    var status: nat
    var verb: Method
    var upgrade: bool
    var errno: Errno
    /** The callbacks made so far, in order. */
    var log: seq<Event>

    function Value(): Parser
      reads this
    {
      Parser(role, flags, state, headerState, index, usesTE, nread, contentLength, major, minor, status, verb, upgrade)
    }

    ghost predicate Valid()
      reads this
    {
      errno.Ok? ==> Good(max, Value()) && Resumable(Value(), log)
    }

    constructor (role: Role, max: nat)
      ensures Valid() && errno.Ok? && log == [] && Value() == Init(role) && this.max == max
    {
      var p := Init(role);
      this.max := max;
      this.role, flags, state, headerState, index := role, p.flags, p.state, p.headerState, p.index;
      usesTE, nread, contentLength, major, minor := p.usesTE, p.nread, p.contentLength, p.major, p.minor;
      status, verb, upgrade, errno, log := p.status, p.verb, p.upgrade, Ok, [];
      new;
      InitGood(max, role);
    }

    method Store(p: Parser)
      modifies `role, `flags, `state, `headerState, `index, `usesTE, `nread, `contentLength, `major, `minor, `status,
               `verb, `upgrade
      ensures Value() == p
    {
      role, flags, state, headerState, index := p.role, p.flags, p.state, p.headerState, p.index;
      usesTE, nread, contentLength, major, minor := p.usesTE, p.nread, p.contentLength, p.major, p.minor;
      status, verb, upgrade := p.status, p.verb, p.upgrade;
    }

    /** The macros `MARK`, `CALLBACK_DATA` and `CALLBACK_NOTIFY` at byte `i`. */
    method Perform(acts: seq<Action>, data: string, i: nat, marks: Marks, ghost live: Option<Kind>)
      returns (marks': Marks)
      requires i < |data| && MarksAre(marks, live, i) && Proper(live, false, acts)
      modifies this`log
      ensures old(log) <= log
      ensures MarksAre(marks', After(live, acts), i + 1)
      ensures TapeOf(log, marks', After(live, acts), data, i + 1)
        == ApplyAll(TapeOf(old(log), marks, live, data, i), acts, data[i])
    {
      marks' := marks;
      ghost var cur := live;
      var pos, j := i, 0;
      assert acts[0..] == acts;
      while j < |acts|
        invariant j <= |acts| && (pos == i || pos == i + 1) && old(log) <= log
        invariant MarksAre(marks', cur, pos) && Proper(cur, pos == i + 1, acts[j..])
        invariant After(cur, acts[j..]) == After(live, acts)
        invariant ApplyAll(TapeOf(log, marks', cur, data, pos), acts[j..], data[i])
          == ApplyAll(TapeOf(old(log), marks, live, data, i), acts, data[i])
      {
        assert acts[j..][1..] == acts[j + 1..] && acts[j..][0] == acts[j];
        match acts[j] {
          case Mark(k) =>
            assert data[pos..pos] == "";
            if k !in marks' { marks' := marks'[k := pos]; }
            cur := Some(k);
          case Take(k) =>
            assert cur == Some(k) && pos == i;
            TapeTakes(log, marks', k, data, i);
            pos := i + 1;
          case Flush(k) =>
            if k in marks' {
              log := log + [Data(k, data[marks'[k]..pos])];
              marks' := marks' - {k};
            }
            cur := None;
          case Notify(e) =>
            log := log + [e];
        }
        j := j + 1;
      }
      assert acts[j..] == [];
    }

    // ----- One call -----

    /** The run `r` of the whole buffer continues at byte `i` with this record, these callbacks and this mark. */
    ghost predicate Track(r: Run, data: string, i: nat, marks: Marks, live: Option<Kind>)
      reads this
    {
      && i <= |data| && errno.Ok? && Good(max, Value()) && nread <= max
      && MarksAre(marks, live, i)
      && Related(Value(), TapeOf(log, marks, live, data, i), live)
      && r == Watched(max, Value(), TapeOf(log, marks, live, data, i), data, i, None)
    }

    /** The call has returned `n` as the report `a` says. A call that fails leaves no record to go on from. */
    ghost predicate Returned(a: Result, data: string, n: nat)
      reads this
    {
      match a
      case Running(q, t) => errno.Ok? && n == |data| && Value() == q && log == t.log
      case Exited(k, q, l) => errno.Ok? && n == k && Value() == q && log == l
      case Failed(k, e, t) => errno == e && !e.Ok? && n == k && log == Delivered(t)
    }

    /** The call has ended before its buffer, as the run `r` makes it. */
    ghost predicate Ended(r: Run, data: string, n: nat)
      reads this
    {
      !Answer(max, r, data).Running? && Returned(Answer(max, r, data), data, n)
    }

    /** The bytes of the batch `b` up to `n` are read, and a limit passed in it is now to be reported. */
    ghost predicate AtLimit(b: Batch, data: string, n: nat, delivered: seq<Event>)
    {
      && b.start < |data| && var a := LimitReport(max, b, data);
      a.Failed? && a.error == HeaderOverflow && a.count == n && Delivered(a.tape) == delivered
    }

    /** `COUNT_HEADER_SIZE`; the 32-bit counter cannot wrap on a buffer of this size. */
    method Count(v: nat) returns (ok: bool)
      requires nread + v < 0x1_0000_0000
      modifies this`nread, this`errno
      ensures nread == old(nread) + v && ok == (nread <= max)
      ensures errno == if ok then old(errno) else HeaderOverflow
    {
      nread := nread + v;
      ok := nread <= max;
      if !ok { errno := HeaderOverflow; }
    }

    /** A state that handles one byte at a time. */
    method OneByte(data: string, i: nat, marks: Marks, ghost live: Option<Kind>, ghost r: Run)
      returns (i': nat, marks': Marks, ghost live': Option<Kind>, stop: bool)
      requires Track(r, data, i, marks, live) && i < |data| && |data| + max < 0x1_0000_0000 && !InBatch(state)
      modifies this
      ensures old(log) <= log
      ensures if stop then Ended(r, data, i') else i < i' && Track(r, data, i', marks', live')
    {
      hide Step, Dispatch, Watched, LimitReport, Good, Related, ApplyAll, Proper, After, LiveOk, Merge;
      ghost var p, t := Value(), TapeOf(log, marks, live, data, i);
      StepSays(r, max, p, t, live, data, i, None);
      DeliveredTape(log, marks, live, data, i);
      ApplyNothing(t, data[i]);
      StepIs(max, p, data[i]);
      marks', live', stop, i' := marks, live, true, i;
      if ParsingHeader(state) {
        var ok := Count(1);
        if !ok { return; }
      }
      var o := Dispatch(Value(), data[i]);
      assert o == Step(max, p, data[i]);
      match o
      case Fail(e, acts) =>
        if acts != [] {
          marks' := Perform(acts, data, i, marks, live);
          DeliveredTape(log, marks', After(live, acts), data, i + 1);
        }
        errno := e;
      case Exit(q, acts) =>
        Store(q);
        marks' := Perform(acts, data, i, marks, live);
        live' := After(live, acts);
        i' := i + 1;
      case Next(q, acts) =>
        Store(q);
        marks' := Perform(acts, data, i, marks, live);
        live' := After(live, acts);
        i', stop := i + 1, false;
    }

    /** `s_header_field`: reads ahead over token characters, up to the first other byte or the end. */
    method ReadField(data: string, start: nat) returns (p: nat)
      requires start < |data|
      modifies this`headerState, this`index, this`usesTE
      ensures start <= p <= |data| && (forall k :: start <= k < p ==> IsToken(data[k]))
      ensures p < |data| ==> !IsToken(data[p])
      ensures Value() == FieldFold(old(Value()), data, start, p)
    {
      hide FieldScan, IsToken, Token;
      ghost var was := Value();
      p := start;
      while p < |data| && IsToken(data[p])
        invariant start <= p <= |data| && (forall k :: start <= k < p ==> IsToken(data[k]))
        invariant Value() == FieldFold(was, data, start, p)
      {
        if headerState.General? {
          // read ahead while nothing is being matched
          var pe := p + if |data| - p < max then |data| - p else max;
          ghost var from := p;
          while p + 1 < pe && IsToken(data[p + 1])
            invariant from <= p < |data| && (forall k :: start <= k <= p ==> IsToken(data[k]))
            invariant headerState.General? && Value() == FieldFold(was, data, start, p)
          {
            FieldSnoc(was, data, start, p);
            GeneralStays(Value(), data[p]);
            p := p + 1;
          }
          FieldSnoc(was, data, start, p);
          GeneralStays(Value(), data[p]);
        } else {
          FieldSnoc(was, data, start, p);
          var s := FieldScan(headerState, index, Token(data[p]));
          headerState, index := s.headerState, s.index;
          if headerState.TransferEncoding? { usesTE := true; }
        }
        p := p + 1;
      }
    }

    /** Header field bytes from `i` on. */
    method FieldBytes(data: string, i: nat, marks: Marks, ghost live: Option<Kind>, ghost r: Run)
      returns (i': nat, marks': Marks, ghost live': Option<Kind>, stop: bool)
      requires Track(r, data, i, marks, live) && i < |data| && |data| + max < 0x1_0000_0000 && state.HeaderField?
      modifies this
      ensures old(log) <= log
      ensures if stop then Ended(r, data, i') else i < i' && Track(r, data, i', marks', live')
    {
      hide Watched, Good, Related, Merge, FieldFold, IsToken, TakeAll, LimitReport, NameEnd;
      ghost var p, t := Value(), TapeOf(log, marks, live, data, i);
      ghost var b := Batch(i, p, t);
      FieldOpen(p, t, live);
      DeliveredTape(log, marks, live, data, i);
      marks', live', stop, i' := marks, live, true, i;
      var ok := Count(1);
      if !ok {
        LimitPassed(max, p, t, data, i, None);
        FirstByteReport(max, b, data);
        return;
      }
      NameReport(max, b, data);
      var j := ReadField(data, i);
      NameEndIs(data, i, j);
      FieldBatch(r, max, p, t, data, i, j);
      FieldCommutes(p, p.nread + 1, data, i, j);
      TapeGrows(log, marks, HeaderFieldData, data, i, j);
      i', marks', live', stop := AfterFieldBytes(data, i, j, marks, r, b);
    }

    /** What follows the name bytes `data[i..j]`, of which one is counted. */
    method AfterFieldBytes(data: string, i: nat, j: nat, marks: Marks, ghost r: Run, ghost b: Batch)
      returns (i': nat, marks': Marks, ghost live': Option<Kind>, stop: bool)
      requires i < |data| && i <= j <= |data| && |data| + max < 0x1_0000_0000 && state.HeaderField?
      requires j < |data| ==> !IsToken(data[j])
      requires errno.Ok? && 1 <= nread <= max && MarksAre(marks, Some(HeaderFieldData), j)
      requires AtLimit(b, data, if j == |data| then j - 1 else j, log)
      requires
        var q, u := Value().(nread := nread - 1 + (j - i)), TapeOf(log, marks, Some(HeaderFieldData), data, j);
        if q.nread > max then PassesLimit(r, b)
        else Good(max, q) && Related(q, u, Some(HeaderFieldData)) && r == Watched(max, q, u, data, j, Some(b))
      modifies this
      ensures old(log) <= log
      ensures if stop then Ended(r, data, i') else i < i' && Track(r, data, i', marks', live')
    {
      hide Watched, Good, Related, Merge, IsToken, LimitReport;
      if j == |data| {
        // the position goes back to the last byte
        marks', live' := marks, Some(HeaderFieldData);
        var ok := Count(j - 1 - i);
        stop, i' := !ok, if ok then j else j - 1;
        CloseBatch(max, Value(), TapeOf(log, marks, live', data, j), data, j, Some(b));
      } else {
        i', marks', live', stop := FieldEndByte(data, j, j - i, marks, r, b);
      }
    }

    /** The byte `data[j]` after a field name, whose `n` bytes are not yet counted. */
    method FieldEndByte(data: string, j: nat, n: nat, marks: Marks, ghost r: Run, ghost b: Batch)
      returns (i': nat, marks': Marks, ghost live': Option<Kind>, stop: bool)
      requires j < |data| && n <= j && |data| + max < 0x1_0000_0000 && state.HeaderField? && !IsToken(data[j])
      requires errno.Ok? && 1 <= nread <= max && MarksAre(marks, Some(HeaderFieldData), j)
      requires AtLimit(b, data, j, log)
      requires
        var q, u := Value().(nread := nread - 1 + n), TapeOf(log, marks, Some(HeaderFieldData), data, j);
        if q.nread > max then PassesLimit(r, b)
        else Good(max, q) && Related(q, u, Some(HeaderFieldData)) && r == Watched(max, q, u, data, j, Some(b))
      modifies this
      ensures old(log) <= log
      ensures if stop then Ended(r, data, i') else i' == j + 1 && Track(r, data, i', marks', live')
    {
      hide Watched, Good, Related, IsToken, LimitReport;
      ghost var q := Value().(nread := nread - 1 + n);
      DeliveredTape(log, marks, Some(HeaderFieldData), data, j);
      if q.nread <= max {
        FieldStop(r, max, q, TapeOf(log, marks, Some(HeaderFieldData), data, j), data, j, b);
      }
      marks', live', stop, i' := marks, Some(HeaderFieldData), true, j;
      var ok := Count(n);
      if !ok { return; }
      if data[j] != ':' {
        errno := InvalidHeaderToken;
        return;
      }
      state := HeaderValueDiscardWs;
      log := log + [Data(HeaderFieldData, data[marks[HeaderFieldData]..j])];
      marks', live', stop, i' := map[], None, false, j + 1;
    }

    /** `s_header_value`: reads ahead over value bytes. A value nothing is looked for in is read in stretches
        of `max` bytes, and the byte after a full stretch is skipped unread: from `m` on, the record may no
        longer be what the bytes say. */
    method ReadValue(data: string, start: nat) returns (p: nat, e: Errno, ghost m: nat)
      requires start < |data| && state.HeaderValue? && 1 <= max
      modifies this`headerState, this`index, this`flags, this`contentLength
      ensures p == ValueEnd(max, old(Value()), data, start) && e == EndError(data, p)
      ensures start <= m <= p <= |data| && ValueFold(old(Value()), data, start, m).Some?
      ensures m == p ==> ValueFold(old(Value()), data, start, m) == Some(Value())
      ensures m < p ==> max <= m - start
      ensures e.InvalidContentLength? ==> m == p && ValueLetter(Value(), data[p]).None?
    {
      hide IsHeaderChar, ValueLetter, ValueFold, GeneralFrom, FirstStop;
      ghost var was, g := Value(), GeneralFrom(Value(), data, start);
      ValueCounted(was, data, start);
      GeneralIs(was, data, start);
      p, e, m := start, Ok, start;
      while p < |data|
        invariant start <= m <= p <= |data| && e.Ok?
        invariant ValueFold(was, data, start, m).Some?
        invariant m == p ==> ValueFold(was, data, start, m) == Some(Value())
        invariant m < p ==> max <= m - start && headerState.General?
        invariant if headerState.General? then Stretching(was, data, start, g, p)
          else g == GeneralFrom(Value(), data, p)
      {
        if headerState.General? { StopIs(max, data, g, p); } else { GeneralIs(Value(), data, p); }
        if data[p] == CR || data[p] == LF { break; }
        if !IsHeaderChar(data[p]) { return p, InvalidHeaderToken, m; }
        if headerState.General? {
          p, e, m := ReadStretch(data, start, p, was, m, g);
          if !e.Ok? { return; }
        } else {
          ValueSnoc(was, data, start, p);
          var ok := ReadLetter(data[p]);
          if !ok { return p, InvalidContentLength, m; }
          GeneralIs(Value(), data, p + 1);
          m := p + 1;
        }
        p := p + 1;
      }
      if p == |data| {
        if headerState.General? { StopIs(max, data, g, p); } else { GeneralIs(Value(), data, p); }
      }
    }

    /** One value byte that something is looked for in. */
    method ReadLetter(ch: char) returns (ok: bool)
      modifies this`headerState, this`index, this`flags, this`contentLength
      ensures ok == ValueLetter(old(Value()), ch).Some?
      ensures Value() == if ok then ValueLetter(old(Value()), ch).value else old(Value())
    {
      hide ValueLetter;
      var o := ValueLetter(Value(), ch);
      ValueLetterFrame(Value(), ch);
      ok := o.Some?;
      if ok {
        headerState, index := o.value.headerState, o.value.index;
        flags, contentLength := o.value.flags, o.value.contentLength;
      }
    }

    /** The loop over a value stands at `p` and has looked for nothing since `g`. */
    ghost predicate Stretching(was: Parser, data: string, start: nat, g: nat, p: nat) {
      && start <= g <= p <= |data| && g == GeneralFrom(was, data, start)
      && ValueFold(was, data, start, g).value.headerState.General?
      && FirstStop(max, data, g, g) == FirstStop(max, data, g, p)
      && (p < |data| ==> (p - g) % (max + 1) == 0 || FirstStop(max, data, g, p) == p)
    }

    /** The inner loop of `h_general`; it ends one byte early, because its caller moves on by one. */
    method ReadStretch(data: string, ghost start: nat, from: nat, ghost was: Parser, ghost m0: nat, ghost g: nat)
      returns (p: nat, e: Errno, ghost m: nat)
      requires start <= m0 <= from < |data| && 1 <= max && headerState.General?
      requires ValueChar(data[from]) && ValueFold(was, data, start, m0).Some? && Stretching(was, data, start, g, from)
      requires if m0 == from then ValueFold(was, data, start, m0) == Some(Value()) else max <= m0 - start
      ensures start <= m <= |data| && ValueFold(was, data, start, m).Some?
      ensures if e.Ok? then from <= p < |data| && m <= p + 1 && Stretching(was, data, start, g, p + 1)
              else m <= p < |data| && e == EndError(data, p) && FirstStop(max, data, g, g) == p
      ensures e.Ok? && m == p + 1 ==> ValueFold(was, data, start, m) == Some(Value())
      ensures e.Ok? && m < p + 1 ==> max <= m - start
      ensures !e.Ok? && m == p ==> ValueFold(was, data, start, m) == Some(Value())
      ensures !e.Ok? && m < p ==> max <= m - start
    {
      hide IsHeaderChar, ValueLetter, ValueFold, GeneralFrom, FirstStop;
      StopIs(max, data, g, from);
      p, e, m := from, Ok, m0;
      var pe := from + if |data| - from < max then |data| - from else max;
      while p != pe
        invariant from <= p <= pe && start <= m <= p && e.Ok? && ValueFold(was, data, start, m).Some?
        invariant if m0 == from then m == p && ValueFold(was, data, start, m) == Some(Value()) else m == m0
        invariant FirstStop(max, data, g, from) == FirstStop(max, data, g, p)
      {
        StretchInspected(max, g, from, p);
        StopIs(max, data, g, p);
        if data[p] == CR || data[p] == LF {
          p := p - 1;
          break;
        }
        if !IsHeaderChar(data[p]) { return p, InvalidHeaderToken, m; }
        if m0 == from {
          ValueSnoc(was, data, start, p);
          GeneralStays(Value(), data[p]);
          m := p + 1;
        }
        p := p + 1;
      }
      if p == |data| {
        p := p - 1;
      } else if p == pe {
        StretchInspected(max, g, from, p);
        StopIs(max, data, g, p);
      }
    }

    /** Header value bytes from `i` on. */
    method ValueBytes(data: string, i: nat, marks: Marks, ghost live: Option<Kind>, ghost r: Run)
      returns (i': nat, marks': Marks, ghost live': Option<Kind>, stop: bool)
      requires Track(r, data, i, marks, live) && i < |data| && |data| + max < 0x1_0000_0000 && state.HeaderValue?
      modifies this
      ensures old(log) <= log
      ensures if stop then Ended(r, data, i') else i < i' && Track(r, data, i', marks', live')
    {
      hide Watched, Good, Related, Merge, ValueFold, IsHeaderChar, TakeAll, ValueLetter, ValueEnd, LimitReport;
      ghost var p, t := Value(), TapeOf(log, marks, live, data, i);
      ghost var b := Batch(i, p, t);
      ValueOpen(p, t, live);
      DeliveredTape(log, marks, live, data, i);
      marks', live', stop, i' := marks, live, true, i;
      var ok := Count(1);
      if !ok {
        LimitPassed(max, p, t, data, i, None);
        FirstByteReport(max, b, data);
        return;
      }
      ghost var m;
      var j, e;
      ValueCounted(p, data, i);
      ValueEndCommutes(max, p, nread, data, i);
      ValueReport(max, b, data);
      j, e, m := ReadValue(data, i);
      ValueReadSays(r, max, p, t, data, i, m, j, Value());
      TapeGrows(log, marks, HeaderValueData, data, i, j);
      i', marks', live', stop := AfterValueBytes(data, i, j, e, marks, r, b, m);
    }

    /** What follows the value bytes `data[i..j]`, of which one is counted. */
    method AfterValueBytes(data: string, i: nat, j: nat, e: Errno, marks: Marks, ghost r: Run, ghost b: Batch,
                           ghost m: nat)
      returns (i': nat, marks': Marks, ghost live': Option<Kind>, stop: bool)
      requires i <= m <= j <= |data| && i < |data| && |data| + max < 0x1_0000_0000 && state.HeaderValue?
      requires errno.Ok? && 1 <= nread <= max && MarksAre(marks, Some(HeaderValueData), i)
      requires e == EndError(data, j) && j == ValueEnd(max, b.parser, data, i)
      requires e.InvalidContentLength? ==> m == j && ValueLetter(Value(), data[j]).None?
      requires b == Batch(i, b.parser, TapeOf(log, marks, Some(HeaderValueData), data, i))
      requires b.parser.nread + 1 == nread
      requires b.parser.state.HeaderValue? && ReadSays(r, max, b.parser, b.tape, data, i, m, j, Value())
      modifies this
      ensures old(log) <= log
      ensures if stop then Ended(r, data, i') else i < i' && Track(r, data, i', marks', live')
    {
      hide Watched, Good, Related, Merge, IsHeaderChar, TakeAll, ValueLetter, ValueEnd, LimitReport;
      ValueReport(max, b, data);
      TapeGrows(log, marks, HeaderValueData, data, i, j);
      DeliveredTape(log, marks, Some(HeaderValueData), data, i);
      DeliveredTape(log, marks, Some(HeaderValueData), data, j);
      marks', live', stop, i' := marks, Some(HeaderValueData), true, j;
      if !e.Ok? {
        errno := e;
        BadValue(r, max, b.parser, b.tape, data, i, m, j, Value());
      } else if j == |data| {
        // the position goes back to the last byte
        var ok := Count(j - 1 - i);
        stop, i' := !ok, if ok then j else j - 1;
        CloseBatch(max, Value(), TapeOf(log, marks, Some(HeaderValueData), data, j), data, j, Some(b));
      } else {
        i', marks', live', stop := ValueEndByte(data, j, j - i, marks, r, b);
      }
    }

    /** The line end `data[j]` after `n` value bytes, which are not yet counted. */
    method ValueEndByte(data: string, j: nat, n: nat, marks: Marks, ghost r: Run, ghost b: Batch)
      returns (i': nat, marks': Marks, ghost live': Option<Kind>, stop: bool)
      requires j < |data| && n <= j && |data| + max < 0x1_0000_0000 && state.HeaderValue?
      requires data[j] == CR || data[j] == LF
      requires errno.Ok? && 1 <= nread <= max && MarksAre(marks, Some(HeaderValueData), j)
      requires
        AtLimit(b, data, j, if data[j] == CR then TapeOf(log, marks, Some(HeaderValueData), data, j).log else log)
      requires
        var q, u := Value().(nread := nread - 1 + n), TapeOf(log, marks, Some(HeaderValueData), data, j);
        (nread + n > max && PassesLimit(r, b))
        || (q.nread <= max && Good(max, q) && Related(q, u, Some(HeaderValueData))
            && r == Watched(max, q, u, data, j, Some(b)))
      modifies this
      ensures old(log) <= log
      ensures if stop then Ended(r, data, i') else i' == j + 1 && Track(r, data, i', marks', live')
    {
      hide Watched, Good, Related, IsHeaderChar, ValueLetter, LimitReport;
      ghost var q := Value().(nread := nread - 1 + n);
      if !(nread + n > max && PassesLimit(r, b)) {
        ValueStop(r, max, q, TapeOf(log, marks, Some(HeaderValueData), data, j), data, j, b);
      }
      marks', live', stop, i' := map[], None, true, j;
      if data[j] == CR {
        // the value is called back before the limit is checked
        state := HeaderAlmostDone;
        log := log + [Data(HeaderValueData, data[marks[HeaderValueData]..j])];
        var ok := Count(n);
        if !ok { return; }
      } else {
        var ok := Count(n);
        if !ok { return; }
        // the line feed is looked at again in `s_header_almost_done`
        state := HeaderValueLws;
        log := log + [Data(HeaderValueData, data[marks[HeaderValueData]..j])];
      }
      stop, i' := false, j + 1;
    }

    /** `s_chunk_data`: takes what the buffer has of the chunk. */
    method ChunkBytes(data: string, i: nat, marks: Marks, ghost live: Option<Kind>, ghost r: Run)
      returns (i': nat, marks': Marks, ghost live': Option<Kind>)
      requires Track(r, data, i, marks, live) && i < |data| && state.ChunkData?
      modifies this
      ensures old(log) <= log
      ensures i < i' && Track(r, data, i', marks', live')
    {
      hide Watched, Good, Related, Merge, TakeBody;
      ghost var p, t := Value(), TapeOf(log, marks, live, data, i);
      LengthKnown(max, p);
      assert contentLength != 0 && contentLength != ULLONG_MAX;
      var toRead := if contentLength < |data| - i then contentLength else |data| - i;
      ChunkTaken(r, max, p, t, live, data, i, i + toRead);
      BodyTapeGrows(log, marks, live, data, i, i + toRead);
      marks' := if Body in marks then marks else marks[Body := i];
      live' := Some(Body);
      contentLength := contentLength - toRead;
      i' := i + toRead;
      if contentLength == 0 { state := ChunkDataAlmostDone; }
    }

    /** `s_body_identity_eof`: takes the rest of the buffer. */
    method EofBytes(data: string, i: nat, marks: Marks, ghost live: Option<Kind>, ghost r: Run)
      returns (i': nat, marks': Marks, ghost live': Option<Kind>)
      requires Track(r, data, i, marks, live) && i < |data| && state.BodyIdentityEof?
      ensures i < i' && Track(r, data, i', marks', live')
    {
      hide Watched, Good, Related, Merge, TakeBody;
      ghost var p, t := Value(), TapeOf(log, marks, live, data, i);
      EofTaken(r, max, p, t, live, data, i);
      BodyTapeGrows(log, marks, live, data, i, |data|);
      marks' := if Body in marks then marks else marks[Body := i];
      live' := Some(Body);
      i' := |data|;
    }

    /** `s_body_identity`: takes what the buffer has of the body, and with its last byte ends the message. */
    method IdentityBytes(data: string, i: nat, marks: Marks, ghost live: Option<Kind>, ghost r: Run)
      returns (i': nat, marks': Marks, ghost live': Option<Kind>, stop: bool)
      requires Track(r, data, i, marks, live) && i < |data| && state.BodyIdentity?
      modifies this
      ensures old(log) <= log
      ensures if stop then Ended(r, data, i') else i < i' && Track(r, data, i', marks', live')
    {
      hide Watched, Good, Related, Merge, TakeBody, NewMessage;
      ghost var p, t := Value(), TapeOf(log, marks, live, data, i);
      LengthKnown(max, p);
      assert contentLength != 0 && contentLength != ULLONG_MAX;
      var toRead := if contentLength < |data| - i then contentLength else |data| - i;
      IdentityTaken(r, max, p, t, live, data, i, i + toRead);
      BodyTapeGrows(log, marks, live, data, i, i + toRead);
      marks' := if Body in marks then marks else marks[Body := i];
      live', stop := Some(Body), false;
      contentLength := contentLength - toRead;
      i' := i + toRead;
      if contentLength == 0 {
        // the last byte again, in `s_message_done`
        log := log + [Data(Body, data[marks'[Body]..i'])] + [MessageComplete];
        marks', live' := map[], None;
        state := NewMessage(Value());
        stop := upgrade;
      }
    }

    /** The marks at the start of a buffer, by the state the last one ended in. */
    method EntryMarks() returns (marks: Marks)
      ensures MarksAre(marks, Live(state), 0)
      ensures forall data :: |data| > 0 ==> TapeOf(log, marks, Live(state), data, 0) == Entry(Value(), log)
    {
      hide Live;
      forall data: string | |data| > 0 ensures data[0..0] == "" {}
      match Live(state)
      case None => marks := map[];
      case Some(k) => marks := map[k := 0];
    }

    /** The callbacks for marks left over at the end of a buffer; the source asserts that there is at most one. */
    method FlushMarks(data: string, marks: Marks, ghost live: Option<Kind>)
      requires MarksAre(marks, live, |data|)
      modifies this`log
      ensures log == TapeOf(old(log), marks, live, data, |data|).log
    {
      assert |marks| <= 1;
      var kinds := [HeaderFieldData, HeaderValueData, Url, Body, Status];
      for n := 0 to 5
        invariant log == if live.Some? && live.value in kinds[..n]
                         then TapeOf(old(log), marks, live, data, |data|).log else old(log)
      {
        if kinds[n] in marks { log := log + [Data(kinds[n], data[marks[kinds[n]]..])]; }
        assert kinds[..n + 1] == kinds[..n] + [kinds[n]];
        assert kinds[n] in marks ==> data[marks[kinds[n]]..] == data[marks[kinds[n]]..|data|];
      }
      assert kinds[..5] == kinds;
      assert live.Some? ==> live.value in kinds by {
        assert kinds[0] in kinds && kinds[1] in kinds && kinds[2] in kinds && kinds[3] in kinds && kinds[4] in kinds;
        AllKinds(live);
      }
    }

    /** One pass of the loop: the state picks a batch or a single byte. */
    method Advance(data: string, i: nat, marks: Marks, ghost live: Option<Kind>, ghost r: Run)
      returns (i': nat, marks': Marks, ghost live': Option<Kind>, stop: bool)
      requires Track(r, data, i, marks, live) && i < |data| && |data| + max < 0x1_0000_0000
      modifies this
      ensures old(log) <= log
      ensures if stop then Ended(r, data, i') else i < i' && Track(r, data, i', marks', live')
    {
      hide Watched, Good, Related, Merge;
      stop := false;
      match state
      case HeaderField => i', marks', live', stop := FieldBytes(data, i, marks, live, r);
      case HeaderValue => i', marks', live', stop := ValueBytes(data, i, marks, live, r);
      case ChunkData => i', marks', live' := ChunkBytes(data, i, marks, live, r);
      case BodyIdentity => i', marks', live', stop := IdentityBytes(data, i, marks, live, r);
      case BodyIdentityEof => i', marks', live' := EofBytes(data, i, marks, live, r);
      case _ => i', marks', live', stop := OneByte(data, i, marks, live, r);
    }

    /** `http_parser_execute`. */
    method Execute(data: string) returns (n: nat)
      requires Valid() && |data| + max < 0x1_0000_0000
      modifies this
      ensures Valid() && old(log) <= log
      ensures !old(errno).Ok? ==> n == 0 && Value() == old(Value()) && log == old(log) && errno == old(errno)
      ensures old(errno).Ok? && |data| == 0 ==>
        Value() == old(Value())
        && log == (if old(state).BodyIdentityEof? then old(log) + [MessageComplete] else old(log))
        && if old(state).BodyIdentityEof? || AtStart(old(state)) then errno.Ok? && n == 0
           else errno.InvalidEofState? && n == 1
      ensures old(errno).Ok? && |data| > 0 ==>
        Returned(Reported(max, old(Value()), old(log), data), data, n)
    {
      hide Watched, Good, Related, Merge, Live, EndsWith;
      if !errno.Ok? { return 0; }
      if |data| == 0 {
        if state.BodyIdentityEof? {
          log := log + [MessageComplete];
          EofResumes(Value(), log);
          return 0;
        } else if AtStart(state) {
          return 0;
        }
        errno := InvalidEofState;
        return 1;
      }
      ghost var r := Watched(max, Value(), Entry(Value(), log), data, 0, None);
      StartTracks(max, Value(), log);
      var marks := EntryMarks();
      ghost var live := Live(state);
      var i, stop := 0, false;
      while i < |data|
        invariant |data| > 0 && Track(r, data, i, marks, live) && old(log) <= log
      {
        i, marks, live, stop := Advance(data, i, marks, live, r);
        if stop {
          ReportIsValid(max, old(Value()), old(log), data);
          return i;
        }
      }
      WatchOver(max, Value(), TapeOf(log, marks, live, data, i), data, None);
      RelatedResumes(Value(), TapeOf(log, marks, live, data, i), live);
      FlushMarks(data, marks, live);
      n := |data|;
    }

    /** A connection's reads, one call each, up to the first call that reports an error or stops early. */
    method Feed(bufs: seq<string>) returns (total: nat)
      requires Valid() && errno.Ok? && bufs != []
      requires forall k :: 0 <= k < |bufs| ==> 0 < |bufs[k]| && |bufs[k]| + max < 0x1_0000_0000
      modifies this
      ensures Valid() && Returned(Fed(max, old(Value()), old(log), bufs), Concat(bufs), total)
    {
      hide Reported, Good, Resumable;
      ghost var all := Fed(max, Value(), log, bufs);
      var k := 0;
      total := 0;
      assert bufs[0..] == bufs;
      while k < |bufs|
        invariant k <= |bufs| && Valid() && errno.Ok?
        invariant all == Shift(total, Fed(max, Value(), log, bufs[k..]))
          || (k == |bufs| && all == Exited(total, Value(), log))
        invariant total + |Concat(bufs[k..])| == |Concat(bufs)|
      {
        assert bufs[k..][0] == bufs[k] && bufs[k..][1..] == bufs[k + 1..];
        ReportIsValid(max, Value(), log, bufs[k]);
        var n := Execute(bufs[k]);
        total := total + n;
        if !errno.Ok? || n != |bufs[k]| { return; }
        k := k + 1;
      }
      assert bufs[k..] == [];
    }
  }
}
