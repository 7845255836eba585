/** A request written by the printer and read by a new request parser. */
module WireTrips {
  import opened ParserTypes
  import opened ParserInvariant
  import opened ParserRun
  import opened ParserReports
  import opened Delivery
  import opened HttpRequests
  import opened RequestParsers
  import opened RoundTrip

  /** The text can be written so that it can be read. */
  predicate Survives(r: Request) { NameOnWire(r) && r.query == "" && r.frag == "" }

  lemma ReportOfPrint(max: nat, r: Request)
    requires Printable(max, r)
    ensures
      var s := Reported(max, Init(Role.Request), [], Print(r));
      if Survives(r) then
        s.Running? && Recovers(DeliverAll(FRESH, s.tape.log), r) && Completions(s.tape.log) == 1
      else s.Failed? && s.error != Ok
    ensures Print(r) != ""
  {
    hide Executed, Printable, Recovers, DeliverAll, Completions, NameOnWire, Print, Reported, Good, Resumable;
    var s := Executed(max, Init(Role.Request), [], Print(r));
    PrintIsText(r);
    InitGood(max, Role.Request);
    InitResumes();
    ReportIsValid(max, Init(Role.Request), [], Print(r));
    if Survives(r) {
      PrintedIsParsed(max, r);
      ReportsItsRun(max, Init(Role.Request), [], Print(r));
    } else {
      if NameOnWire(r) { QueryIsRejected(max, r); } else { NameIsRejected(max, r); }
      FailureIsReported(max, Init(Role.Request), [], Print(r));
    }
  }

  lemma InitResumes()
    ensures Resumable(Init(Role.Request), [])
  {
  }

  lemma PrintIsText(r: Request)
    ensures Print(r) != ""
  {
    hide ConnectionLine, HeaderLines, LengthLine;
    PrintIs(r);
  }

  lemma FailureIsReported(max: nat, p: Parser, log: seq<Event>, data: string)
    requires Executed(max, p, log, data).Failed?
    ensures Reported(max, p, log, data).Failed?
  {
    hide Executed, Reported;
    if Executed(max, p, log, data).error == HeaderOverflow {
      OverflowIsReported(max, p, log, data);
    } else {
      ReportsItsRun(max, p, log, data);
    }
  }

  /** Writing a request and giving the text to a new parser, in one call: the call succeeds with the request recovered
      exactly when the method has its name on the wire and there is no query and no fragment. Then the whole text is
      used up and the message is finished. */
  method PrintAndParse(request: HttpRequest, max: nat) returns (reader: HttpRequestParser, n: nat)
    requires Printable(max, request.Value()) && |Print(request.Value())| + max < 0x1_0000_0000
    ensures fresh(reader) && request.Value() == old(request.Value())
    ensures reader.parser.errno.Ok? && Recovers(reader.data.Value(), request.Value()) <==> Survives(request.Value())
    ensures Survives(request.Value()) ==> n == |Print(request.Value())| && reader.finish
  {
    hide Printable, Recovers, DeliverAll, Completions, NameOnWire, Print, Reported, Survives;
    var text := request.ToString();
    reader := new HttpRequestParser(max);
    ReportOfPrint(max, request.Value());
    n := reader.Execute(text);
  }
}
