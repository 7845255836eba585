/** `HttpRequestParser`: the parser, the request that its callbacks fill in, and the finish flag. */
module RequestParsers {
  import opened ParserTypes
  import opened Delivery
  import opened HttpRequests
  import opened HttpParsers
  import opened ParserReports

  lemma CompletionChangesNothing(r: Request)
    ensures Deliver(r, MessageComplete) == r
  {
  }

  class HttpRequestParser {
    const parser: HttpParser
    const data: HttpRequest
    var finish: bool

    /** The request is what the callbacks so far have made of a fresh one. */
    ghost predicate Valid()
      reads this, parser, data
    {
      && parser.Valid() && Sorted(data.headers)
      && data.Value() == DeliverAll(FRESH, parser.log)
      && (finish <==> Completions(parser.log) > 0)
    }

    constructor (max: nat)
      ensures Valid() && fresh(parser) && fresh(data) && parser.max == max
      ensures parser.errno.Ok? && parser.log == [] && parser.Value() == Init(Role.Request) && !finish
    {
      parser := new HttpParser(Role.Request, max);
      data := new HttpRequest();
      finish := false;
    }

    /** `execute`: the callbacks of this call are delivered in order, on success and on error alike. */
    method Execute(buf: string) returns (n: nat)
      requires Valid() && |buf| + parser.max < 0x1_0000_0000
      modifies this, parser, data
      ensures Valid() && old(parser.log) <= parser.log
      ensures !old(parser.errno).Ok? ==> n == 0 && parser.log == old(parser.log) && parser.errno == old(parser.errno)
      ensures old(parser.errno).Ok? && buf == "" ==>
        var closes := old(parser.state).BodyIdentityEof?;
        parser.Value() == old(parser.Value())
        && parser.log == (if closes then old(parser.log) + [MessageComplete] else old(parser.log))
        && if closes || AtStart(old(parser.state)) then parser.errno.Ok? && n == 0
           else parser.errno.InvalidEofState? && n == 1
      ensures old(parser.errno).Ok? && |buf| > 0 ==>
        parser.Returned(Reported(parser.max, old(parser.Value()), old(parser.log), buf), buf, n)
    {
      hide Reported, Deliver, DeliverAll, Completions, HttpParser.Valid, HttpParser.Value, HttpParser.Returned, Init;
      var from := |parser.log|;
      n := parser.Execute(buf);
      var log := parser.log;
      assert log[..from] == old(parser.log);
      var k := from;
      while k < |log|
        invariant from <= k <= |log| && parser.log == log && parser.Valid() && Sorted(data.headers)
        invariant data.Value() == DeliverAll(FRESH, log[..k]) && (finish <==> Completions(log[..k]) > 0)
        modifies this, data
      {
        assert log[..k + 1] == log[..k] + [log[k]];
        DeliverSnoc(FRESH, log[..k], log[k]);
        BodySnoc(log[..k], log[k]);
        if log[k].MessageComplete? {
          CompletionChangesNothing(data.Value());
          finish := true;
        } else {
          data.Handle(log[k]);
        }
        k := k + 1;
      }
      assert log[..k] == log;
    }
  }
}
