/** The two numbers of HTTP framing: the hexadecimal chunk size and the decimal `Content-Length`. Each is
    accepted exactly when its digits denote a value below a fixed bound, and is then exactly that value. */
module Lengths {
  import opened Bytes
  import opened ParserTypes
  import opened ParserStep
  import opened ParserRun
  import opened ParserSegments

  predicate AllHex(s: string) { forall k :: 0 <= k < |s| ==> IsHex(s[k]) }

  predicate AllDigits(s: string) { forall k :: 0 <= k < |s| ==> IsNum(s[k]) }

  /** The number that hexadecimal digits denote. */
  function HexValue(s: string): nat
    requires AllHex(s)
  {
    if s == "" then 0 else HexValue(s[..|s| - 1]) * 16 + Unhex(s[|s| - 1])
  }

  /** The number that decimal digits denote. */
  function DecValue(s: string): nat
    requires AllDigits(s)
  {
    if s == "" then 0 else DecValue(s[..|s| - 1]) * 10 + Digit(s[|s| - 1])
  }

  /** The largest chunk size that the overflow guard lets through. */
  const MAX_CHUNK: nat := 0xFFFF_FFFF_FFFF_FFEF
  /** The largest `Content-Length` that the overflow guard lets through. */
  const MAX_LENGTH: nat := 18446744073709551609

  lemma BoundsBelowSentinel()
    ensures MAX_CHUNK == ULLONG_MAX - 16 && MAX_LENGTH == ULLONG_MAX - 6
  {
  }

  lemma HexBelow16(c: char)
    requires IsHex(c)
    ensures Unhex(c) < 16
  {
  }

  predicate SizeGuarded(v: nat) { (ULLONG_MAX - 16) / 16 < v }

  /** The overflow guard, in terms of the value it protects. */
  lemma SizeGuard(v: nat, d: nat)
    requires d < 16
    ensures SizeGuarded(v) <==> MAX_CHUNK < v * 16 + d
    ensures v * 16 + d <= MAX_CHUNK ==> v <= MAX_CHUNK
  {
    assert (ULLONG_MAX - 16) / 16 == 0x0FFF_FFFF_FFFF_FFFE;
  }

  lemma SizeDigit(max: nat, p: Parser, ch: char)
    requires (p.state.ChunkSizeStart? || p.state.ChunkSize?) && IsHex(ch) && p.nread < max
    ensures Step(max, p, ch) ==
      (var q := p.(nread := p.nread + 1);
       if p.state.ChunkSizeStart? then Next(q.(contentLength := Unhex(ch), state := ChunkSize), [])
       else if SizeGuarded(p.contentLength) then Fail(InvalidContentLength, [])
       else Next(q.(contentLength := p.contentLength * 16 + Unhex(ch)), []))
  {
    hide Step, MessageDone, BodyByte, Unhex;
    BodyStepIs(max, p, ch);
  }

  /** A chunk-size digit string of any length: accepted with its exact value, or rejected as too large. */
  lemma {:induction false} ChunkSizeValue(max: nat, p: Parser, t: Tape, s: string)
    requires s != "" && AllHex(s) && p.state.ChunkSizeStart? && p.nread + |s| <= max
    ensures
      if HexValue(s) <= MAX_CHUNK then
        Leads(max, p, t, s, p.(contentLength := HexValue(s), state := ChunkSize, nread := p.nread + |s|), t)
      else RunFrom(max, p, t, s, 0).Failed? && RunFrom(max, p, t, s, 0).error == InvalidContentLength
    decreases |s|
  {
    hide Step, IsHex, Unhex, RunFrom, SizeGuarded;
    var init, last := s[..|s| - 1], s[|s| - 1];
    InitLast(s);
    HexBelow16(last);
    SizeGuard(HexValue(init), Unhex(last));
    if |s| == 1 {
      assert HexValue(init) == 0;
      SizeDigit(max, p, last);
      LeadsQuietly(max, p, t, last, p.(contentLength := Unhex(last), state := ChunkSize, nread := p.nread + 1));
      assert s == [last];
    } else {
      ChunkSizeValue(max, p, t, init);
      if HexValue(init) <= MAX_CHUNK {
        var q := p.(contentLength := HexValue(init), state := ChunkSize, nread := p.nread + |init|);
        SizeDigit(max, q, last);
        if SizeGuarded(q.contentLength) {
          FailsAt(max, q, t, last, InvalidContentLength);
          Follow(max, p, t, init, q, t, [last]);
        } else {
          var r := q.(contentLength := HexValue(s), nread := q.nread + 1);
          LeadsQuietly(max, q, t, last, r);
          Join(max, p, t, init, q, t, [last], r, t);
        }
      } else {
        FailsInside(max, p, t, init, [last]);
      }
    }
  }

  lemma TakeTape(log: seq<Event>, k: Kind, s: string, ch: char)
    ensures ApplyAll(Tape(log + [Data(k, s)], true), [Take(k)], ch) == Tape(log + [Data(k, s + [ch])], true)
    ensures ApplyAll(Tape(log, false), [Mark(k), Take(k)], ch) == Tape(log + [Data(k, [ch])], true)
  {
    assert [Take(k)][1..] == [] && [Mark(k), Take(k)][1..] == [Take(k)];
    assert (log + [Data(k, s)])[..|log|] == log;
    assert (log + [Data(k, "")])[..|log|] == log;
    var u := Apply(Tape(log, false), Mark(k), ch);
    assert "" + [ch] == [ch];
    assert ApplyAll(Tape(log, false), [Mark(k), Take(k)], ch) == ApplyAll(u, [Take(k)], ch) == Apply(u, Take(k), ch);
  }

  lemma LengthFirst(max: nat, p: Parser, ch: char)
    requires p.state.HeaderValueDiscardWs? && p.headerState.ContentLength? && !p.flags.contentLength
    requires IsNum(ch) && p.nread < max
    ensures Step(max, p, ch) ==
      Next(p.(nread := p.nread + 1, state := HeaderValue, index := 0, flags := p.flags.(contentLength := true),
              contentLength := Digit(ch), headerState := ContentLengthNum),
           [Mark(HeaderValueData), Take(HeaderValueData)])
  {
    hide Step, Digit, FieldStart, FieldByte, ValueByte, AfterEmptyLine, AfterValueLine, EndOfHeaders;
    HeaderStepIs(max, p, ch);
  }

  predicate LengthGuarded(v: nat) { (ULLONG_MAX - 10) / 10 < v }

  lemma LengthGuard(v: nat, d: nat)
    requires d < 10
    ensures LengthGuarded(v) <==> MAX_LENGTH < v * 10 + d
    ensures v * 10 + d <= MAX_LENGTH ==> v <= MAX_LENGTH
  {
    assert (ULLONG_MAX - 10) / 10 == 1844674407370955160;
  }

  lemma LengthDigit(max: nat, p: Parser, ch: char)
    requires p.state.HeaderValue? && p.headerState.ContentLengthNum? && IsNum(ch) && p.nread < max
    ensures Step(max, p, ch) ==
      if LengthGuarded(p.contentLength) then Fail(InvalidContentLength, [])
      else Next(p.(nread := p.nread + 1, contentLength := p.contentLength * 10 + Digit(ch)), [Take(HeaderValueData)])
  {
    hide Step, Digit, FieldStart, FieldByte, ValueStart, AfterEmptyLine, AfterValueLine, EndOfHeaders, ValueScan;
    HeaderStepIs(max, p, ch);
  }

  /** The value of a `Content-Length` header, from its first digit: accepted with its exact value, or rejected
      as too large, for digit strings of any length. */
  lemma {:induction false} ContentLengthValue(max: nat, p: Parser, log: seq<Event>, s: string)
    requires s != "" && AllDigits(s) && p.nread + |s| <= max
    requires p.state.HeaderValueDiscardWs? && p.headerState.ContentLength? && !p.flags.contentLength
    ensures
      if DecValue(s) <= MAX_LENGTH then
        Leads(max, p, Tape(log, false), s,
              p.(nread := p.nread + |s|, state := HeaderValue, index := 0, flags := p.flags.(contentLength := true),
                 contentLength := DecValue(s), headerState := ContentLengthNum),
              Tape(log + [Data(HeaderValueData, s)], true))
      else
        RunFrom(max, p, Tape(log, false), s, 0).Failed?
        && RunFrom(max, p, Tape(log, false), s, 0).error == InvalidContentLength
    decreases |s|
  {
    hide Step, IsNum, Digit, RunFrom, ApplyAll, LengthGuarded;
    var init, last := s[..|s| - 1], s[|s| - 1];
    var t := Tape(log, false);
    var whole := p.(nread := p.nread + |s|, state := HeaderValue, index := 0, flags := p.flags.(contentLength := true),
                    contentLength := DecValue(s), headerState := ContentLengthNum);
    InitLast(s);
    DigitBelow10(last);
    LengthGuard(DecValue(init), Digit(last));
    TakeTape(log, HeaderValueData, init, last);
    if |s| == 1 {
      assert DecValue(init) == 0;
      LengthFirst(max, p, last);
      LeadsByte(max, p, t, last, whole, [Mark(HeaderValueData), Take(HeaderValueData)]);
      assert s == [last];
    } else {
      ContentLengthValue(max, p, log, init);
      if DecValue(init) <= MAX_LENGTH {
        var q := whole.(nread := p.nread + |init|, contentLength := DecValue(init));
        var u := Tape(log + [Data(HeaderValueData, init)], true);
        LengthDigit(max, q, last);
        if LengthGuarded(q.contentLength) {
          FailsAt(max, q, u, last, InvalidContentLength);
          Follow(max, p, t, init, q, u, [last]);
        } else {
          LeadsByte(max, q, u, last, whole, [Take(HeaderValueData)]);
          Join(max, p, t, init, q, u, [last], whole, Tape(log + [Data(HeaderValueData, s)], true));
        }
      } else {
        FailsInside(max, p, t, init, [last]);
      }
    }
  }

  lemma DigitBelow10(c: char)
    requires IsNum(c)
    ensures Digit(c) < 10
  {
  }
}
