/** What the callbacks deliver: body bytes and completed messages, however the callbacks are cut. */
module Delivery {
  import opened ParserTypes
  import opened ParserRun

  /** The bytes given to `on_body`. */
  function BodyOf(log: seq<Event>): string {
    if log == [] then ""
    else BodyOf(log[..|log| - 1])
         + (match log[|log| - 1] case Data(Body, s) => s case _ => "")
  }

  function Completions(log: seq<Event>): nat {
    if log == [] then 0 else Completions(log[..|log| - 1]) + if log[|log| - 1].MessageComplete? then 1 else 0
  }

  lemma BodySnoc(log: seq<Event>, e: Event)
    ensures BodyOf(log + [e]) == BodyOf(log) + (match e case Data(Body, s) => s case _ => "")
    ensures Completions(log + [e]) == Completions(log) + if e.MessageComplete? then 1 else 0
  {
    assert (log + [e])[..|log|] == log;
  }

  /** Merging callbacks changes neither the body nor the number of completed messages. */
  lemma {:induction false} MergeKeepsBody(log: seq<Event>)
    ensures BodyOf(Merge(log)) == BodyOf(log) && Completions(Merge(log)) == Completions(log)
    decreases |log|
  {
    if log != [] {
      var init, e := log[..|log| - 1], log[|log| - 1];
      MergeKeepsBody(init);
      EmitKeepsBody(Merge(init), e);
    }
  }

  lemma EmitKeepsBody(m: seq<Event>, e: Event)
    ensures BodyOf(Emit(m, e)) == BodyOf(m) + (match e case Data(Body, s) => s case _ => "")
    ensures Completions(Emit(m, e)) == Completions(m) + if e.MessageComplete? then 1 else 0
  {
    BodySnoc(m, e);
    if e.Data? && m != [] && m[|m| - 1].Data? && m[|m| - 1].kind == e.kind {
      var init, last := m[..|m| - 1], m[|m| - 1];
      BodySnoc(init, Data(e.kind, last.bytes + e.bytes));
      if e.kind.Body? { assert BodyOf(init) + (last.bytes + e.bytes) == BodyOf(init) + last.bytes + e.bytes; }
      else { assert BodyOf(init) + "" + "" == BodyOf(init); }
    }
  }
}
