/** The one-shot reply of responseMode "single" (pkg/workflow/builtin/natschat/collectsink.go and
    handleSingle in trigger.go). Decoding a terminator's payload is a parameter. */
module ReplySink {
  import opened StreamProtocol
  import opened StreamSession
  import opened Wrappers

  datatype SingleResult =
    | Body(sessionId: string, finalText: string, stopReason: string, attachments: seq<string>)
    | Failure(code: string, message: string)

  /** complete gives a complete payload's final text and stop reason, or the decoding error;
      error gives an error payload's code and message, empty where absent. */
  datatype Decoder = Decoder(complete: string -> Parsed, error: string -> (string, string))

  datatype Parsed = Parsed(finalText: string, stopReason: string) | Malformed(error: string)

  function ResultOf(d: Decoder, sessionId: string, term: Event, attachments: seq<string>): SingleResult {
    if term.kind.Complete? then
      match d.complete(term.data)
      case Parsed(text, stop) => Body(sessionId, text, stop, attachments)
      case Malformed(e) => Failure("executor-failed", "malformed complete payload: " + e)
    else
      var (code, message) := d.error(term.data);
      Failure(if code == "" then "executor-failed" else code, if message == "" then "workflow failed" else message)
  }

  /** The attachments sent in cs, in order. */
  function Attachments(cs: seq<SinkCall>): seq<string> {
    if cs == [] then [] else
    var c := cs[|cs| - 1];
    Attachments(cs[..|cs| - 1]) + if c.Sent? && c.event.kind.Attachment? then [c.event.data] else []
  }

  /** The results delivered after the calls cs: none before the first close, one from then on. */
  function Results(d: Decoder, sessionId: string, cs: seq<SinkCall>): seq<SingleResult> {
    if cs == [] then [] else
    var sofar := Results(d, sessionId, cs[..|cs| - 1]);
    var c := cs[|cs| - 1];
    if sofar == [] && c.Closed? then [ResultOf(d, sessionId, c.term, Attachments(cs[..|cs| - 1]))] else sofar
  }

  class CollectSink {
    const sessionId: string
    const decoder: Decoder
    var closed: bool
    var attachments: seq<string>
    var done: seq<SingleResult>
    ghost var calls: seq<SinkCall>

    /** done, the channel of capacity one, holds what the calls so far have delivered. */
    ghost predicate Valid()
      reads this
    {
      && done == Results(decoder, sessionId, calls)
      && (closed <==> done != [])
      && (!closed ==> attachments == Attachments(calls))
      && |done| <= 1
    }

    constructor (sessionId: string, decoder: Decoder)
      ensures Valid() && calls == [] && this.sessionId == sessionId && this.decoder == decoder
    {
      this.sessionId, this.decoder := sessionId, decoder;
      closed, attachments, done, calls := false, [], [], [];
    }

    method Send(e: Event)
      requires Valid()
      modifies this
      ensures Valid() && calls == old(calls) + [Sent(e)]
    {
      calls := calls + [Sent(e)];
      assert calls[..|calls| - 1] == old(calls);
      if !e.kind.Attachment? || closed {
        return;
      }
      attachments := attachments + [e.data];
    }

    method Close(term: Event)
      requires Valid()
      modifies this
      ensures Valid() && calls == old(calls) + [Closed(term)]
      ensures done != []
    {
      calls := calls + [Closed(term)];
      assert calls[..|calls| - 1] == old(calls);
      if closed {
        return;
      }
      closed := true;
      done := done + [ResultOf(decoder, sessionId, term, attachments)];
    }

    method Take(c: SinkCall)
      requires Valid()
      modifies this
      ensures Valid() && calls == old(calls) + [c]
    {
      match c
      case Sent(e) => Send(e);
      case Closed(t) => Close(t);
    }
  }

  /** However often the sink is closed, it delivers exactly one result: that of the first close,
      with the attachments sent before it. */
  lemma {:induction false} FirstCloseDecides(d: Decoder, sessionId: string, before: seq<SinkCall>, term: Event, after: seq<SinkCall>)
    requires forall c | c in before :: c.Sent?
    ensures Results(d, sessionId, before + [Closed(term)] + after) == [ResultOf(d, sessionId, term, Attachments(before))]
  {
    var all := before + [Closed(term)] + after;
    if after == [] {
      assert all == before + [Closed(term)];
      NoCloseNoResult(d, sessionId, before);
      OneMoreResult(d, sessionId, before, Closed(term));
    } else {
      var most := before + [Closed(term)] + after[..|after| - 1];
      assert all == most + [after[|after| - 1]];
      FirstCloseDecides(d, sessionId, before, term, after[..|after| - 1]);
      OneMoreResult(d, sessionId, most, after[|after| - 1]);
    }
  }

  lemma {:induction false} OneMoreResult(d: Decoder, sessionId: string, cs: seq<SinkCall>, c: SinkCall)
    ensures Results(d, sessionId, cs + [c]) ==
            if Results(d, sessionId, cs) == [] && c.Closed? then [ResultOf(d, sessionId, c.term, Attachments(cs))]
            else Results(d, sessionId, cs)
  {
    assert (cs + [c])[..|cs|] == cs;
  }

  lemma {:induction false} NoCloseNoResult(d: Decoder, sessionId: string, cs: seq<SinkCall>)
    requires forall c | c in cs :: c.Sent?
    ensures Results(d, sessionId, cs) == []
  {
    if cs != [] {
      assert cs[|cs| - 1] in cs;
      NoCloseNoResult(d, sessionId, cs[..|cs| - 1]);
    }
  }

  datatype Reply = Success(body: SingleResult) | ErrorReply(code: string, message: string)

  function ToReply(r: SingleResult, ctxDone: bool): Reply {
    match r
    case Failure(code, message) =>
      if code == "timeout" || (code == "cancelled" && ctxDone) then ErrorReply("timeout", "request timeout")
      else ErrorReply(code, message)
    case Body(_, _, _, _) => Success(r)
  }

  // ---- what the caller is told

  predicate FirstClose(cs: seq<SinkCall>, k: nat) {
    k < |cs| && cs[k].Closed? && forall i | 0 <= i < k :: cs[i].Sent?
  }

  /** The reply to a run closed with term after these calls: a complete payload's text, stop reason and
      the attachments sent; an error when it does not decode; and otherwise the error payload's code and
      message, with defaults for missing ones, and a timeout for what was cut short by the deadline. */
  predicate RepliesTo(d: Decoder, sessionId: string, before: seq<SinkCall>, term: Event, ctxDone: bool, reply: Reply) {
    if term.kind.Complete? then
      match d.complete(term.data)
      case Parsed(text, stop) => reply == Success(Body(sessionId, text, stop, Attachments(before)))
      case Malformed(e) => reply == ErrorReply("executor-failed", "malformed complete payload: " + e)
    else
      var (code, message) := d.error(term.data);
      && (code == "timeout" || (code == "cancelled" && ctxDone) ==> reply == ErrorReply("timeout", "request timeout"))
      && (code != "timeout" && !(code == "cancelled" && ctxDone) ==>
            && reply.ErrorReply?
            && reply.code == (if code == "" then "executor-failed" else code)
            && reply.message == (if message == "" then "workflow failed" else message))
  }

  lemma {:induction false} FirstCloseReplies(d: Decoder, sessionId: string, cs: seq<SinkCall>, k: nat, ctxDone: bool)
    requires FirstClose(cs, k)
    ensures |Results(d, sessionId, cs)| == 1
    ensures RepliesTo(d, sessionId, cs[..k], cs[k].term, ctxDone, ToReply(Results(d, sessionId, cs)[0], ctxDone))
  {
    assert cs == cs[..k] + [Closed(cs[k].term)] + cs[k + 1..];
    FirstCloseDecides(d, sessionId, cs[..k], cs[k].term, cs[k + 1..]);
  }

  /** Everything the run makes the sink deliver. */
  method Collect(sessionId: string, d: Decoder, emitted: seq<SinkCall>) returns (done: seq<SingleResult>)
    ensures done == Results(d, sessionId, emitted) && |done| <= 1
  {
    var sink := new CollectSink(sessionId, d);
    for i := 0 to |emitted|
      invariant sink.Valid() && sink.calls == emitted[..i] && sink.sessionId == sessionId && sink.decoder == d
    {
      assert emitted[..i + 1] == emitted[..i] + [emitted[i]];
      sink.Take(emitted[i]);
    }
    assert emitted[..|emitted|] == emitted;
    return sink.done;
  }

  /** handleSingle: emitted is every call the run makes on the sink, emitErr what Emit returned; with
      neither a result nor an error it waits for the request to time out. */
  method HandleSingle(sessionId: string, d: Decoder, emitted: seq<SinkCall>, emitErr: Option<string>, ctxDone: bool)
    returns (reply: Reply)
    ensures forall k: nat | FirstClose(emitted, k) :: RepliesTo(d, sessionId, emitted[..k], emitted[k].term, ctxDone, reply)
    ensures (forall c | c in emitted :: c.Sent?) ==>
              reply == if emitErr.Some? then ErrorReply("executor-failed", emitErr.value) else ErrorReply("timeout", "request timeout")
  {
    forall k: nat | FirstClose(emitted, k)
      ensures |Results(d, sessionId, emitted)| == 1
      ensures RepliesTo(d, sessionId, emitted[..k], emitted[k].term, ctxDone, ToReply(Results(d, sessionId, emitted)[0], ctxDone))
    {
      FirstCloseReplies(d, sessionId, emitted, k, ctxDone);
    }
    if forall c | c in emitted :: c.Sent? {
      NoCloseNoResult(d, sessionId, emitted);
    }
    var done := Collect(sessionId, d, emitted);
    if done != [] {
      return ToReply(done[0], ctxDone);
    }
    if emitErr.Some? {
      return ErrorReply("executor-failed", emitErr.value);
    }
    return ErrorReply("timeout", "request timeout");
  }
}
