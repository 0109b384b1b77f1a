/** The server's stream session (pkg/transport/natsstream/server.go) and the layers that close it. */
module StreamSession {
  import opened StreamProtocol
  import opened Wrappers

  // ---- the session, as a value

  datatype SessionState = SessionState(seqNo: nat, closed: bool, wire: seq<WireEvent>)

  /** A producer's call on the session. */
  datatype Call = StartCall(data: string) | SendCall(event: Event) | CompleteCall(data: string) | FailCall(data: string) {
    /** The event the call asks for. */
    function Asked(): Event {
      match this
      case StartCall(d) => Event(Kind.Start, d)
      case SendCall(e) => e
      case CompleteCall(d) => Event(Kind.Complete, d)
      case FailCall(d) => Event(Kind.Error, d)
    }
  }

  function Published(s: SessionState, e: Event): SessionState {
    s.(seqNo := s.seqNo + 1, wire := s.wire + [WireEvent(s.seqNo, e)])
  }

  function AfterCall(s: SessionState, c: Call): SessionState {
    if c.StartCall? then Published(s, c.Asked())
    else if s.closed then s
    else if c.Asked().Terminates() then Published(s.(closed := true), c.Asked())
    else Published(s, c.Asked())
  }

  function AfterCalls(s: SessionState, calls: seq<Call>): SessionState {
    if calls == [] then s else AfterCall(AfterCalls(s, calls[..|calls| - 1]), calls[|calls| - 1])
  }

  class Session {
    var seqNo: nat
    var closed: bool
    var subscribed: bool
    var cancelled: bool
    var wire: seq<WireEvent>

    ghost function State(): SessionState
      reads this
    {
      SessionState(seqNo, closed, wire)
    }

    constructor ()
      ensures State() == SessionState(0, false, []) && subscribed && !cancelled
    {
      seqNo, closed, subscribed, cancelled, wire := 0, false, true, false, [];
    }

    method Publish(e: Event)
      modifies this`seqNo, this`wire
      ensures State() == Published(old(State()), e)
    {
      var n := seqNo;
      seqNo := seqNo + 1;
      wire := wire + [WireEvent(n, e)];
    }

    /** The first terminator wins; every later one is a no-op. */
    method Terminate(e: Event)
      modifies this
      ensures State() == if old(closed) then old(State()) else Published(old(State()).(closed := true), e)
      ensures !old(closed) ==> !subscribed && cancelled
      ensures old(closed) ==> subscribed == old(subscribed) && cancelled == old(cancelled)
    {
      if closed {
        return;
      }
      closed := true;
      subscribed := false;
      cancelled := true;
      Publish(e);
    }

    /** Carries out one call; false is ErrClosed. */
    method Do(c: Call) returns (ok: bool)
      modifies this
      ensures State() == AfterCall(old(State()), c)
      ensures ok <==> !(c.SendCall? && old(closed))
    {
      ok := true;
      match c
      case StartCall(_) => Publish(c.Asked());
      case SendCall(e) =>
        if closed {
          ok := false;
        } else if e.Terminates() {
          Terminate(e);
        } else {
          Publish(e);
        }
      case CompleteCall(_) => Terminate(c.Asked());
      case FailCall(_) => Terminate(c.Asked());
    }
  }

  // ---- what a whole sequence of calls puts on the wire

  predicate Ended(calls: seq<Call>) {
    calls != [] && calls[|calls| - 1].Asked().Terminates()
  }

  /** The calls that reach the wire: all up to the first that asks for a terminator. */
  function Effective(calls: seq<Call>): seq<Call> {
    if calls == [] then [] else
    var sofar := Effective(calls[..|calls| - 1]);
    if Ended(sofar) then sofar else sofar + [calls[|calls| - 1]]
  }

  function Events(calls: seq<Call>): seq<Event> {
    seq(|calls|, i requires 0 <= i < |calls| => calls[i].Asked())
  }

  function Numbered(events: seq<Event>): seq<WireEvent> {
    seq(|events|, i requires 0 <= i < |events| => WireEvent(i, events[i]))
  }

  lemma {:induction false} EffectiveShape(calls: seq<Call>)
    ensures Effective(calls) <= calls
    ensures forall i | 0 <= i < |Effective(calls)| - 1 :: !Effective(calls)[i].Asked().Terminates()
    ensures Ended(Effective(calls)) <==> exists c | c in calls :: c.Asked().Terminates()
    ensures !Ended(Effective(calls)) ==> Effective(calls) == calls
  {
    if calls != [] {
      var head, last := calls[..|calls| - 1], calls[|calls| - 1];
      EffectiveShape(head);
      assert calls == head + [last];
    }
  }

  const OPEN := SessionState(0, false, [])

  function EventsAfter(start: string, calls: seq<Call>): seq<Event> {
    [Event(Kind.Start, start)] + Events(Effective(calls))
  }

  /** The session that has published exactly these events. */
  function StateOf(events: seq<Event>, closed: bool): SessionState {
    SessionState(|events|, closed, Numbered(events))
  }

  lemma {:induction false} PublishedAdds(events: seq<Event>, closed: bool, e: Event)
    ensures Published(StateOf(events, closed), e) == StateOf(events + [e], closed)
  {
    assert Numbered(events + [e]) == Numbered(events) + [WireEvent(|events|, e)];
  }

  lemma {:induction false} RunState(start: string, calls: seq<Call>)
    requires forall c | c in calls :: !c.StartCall?
    ensures AfterCalls(OPEN, [StartCall(start)] + calls) == StateOf(EventsAfter(start, calls), Ended(Effective(calls)))
  {
    var all := [StartCall(start)] + calls;
    if calls == [] {
      assert all[..0] == [];
      PublishedAdds([], false, Event(Kind.Start, start));
    } else {
      var head, last := calls[..|calls| - 1], calls[|calls| - 1];
      assert calls == head + [last] && last in calls;
      assert all[..|all| - 1] == [StartCall(start)] + head && all[|all| - 1] == last;
      RunState(start, head);
      OneMoreCall(start, head, last);
    }
  }

  lemma {:induction false} OneMoreCall(start: string, head: seq<Call>, last: Call)
    requires !last.StartCall?
    ensures AfterCall(StateOf(EventsAfter(start, head), Ended(Effective(head))), last) ==
            StateOf(EventsAfter(start, head + [last]), Ended(Effective(head + [last])))
  {
    var calls := head + [last];
    assert calls[..|calls| - 1] == head;
    if !Ended(Effective(head)) {
      assert Effective(calls) == Effective(head) + [last];
      assert Events(Effective(calls)) == Events(Effective(head)) + [last.Asked()];
      assert EventsAfter(start, calls) == EventsAfter(start, head) + [last.Asked()];
      PublishedAdds(EventsAfter(start, head), last.Asked().Terminates(), last.Asked());
    }
  }

  lemma {:induction false} EndedIsComplete(start: string, calls: seq<Call>)
    requires Ended(calls) && forall i | 0 <= i < |calls| - 1 :: !calls[i].Asked().Terminates()
    ensures CompleteStream([Event(Kind.Start, start)] + Events(calls))
  {
    var events := [Event(Kind.Start, start)] + Events(calls);
    forall i | 0 <= i < |events| - 1 ensures !events[i].Terminates() {
      if i > 0 {
        assert events[i] == calls[i - 1].Asked();
      }
    }
  }

  /** For any calls after Start, the wire carries the start event, then the data events asked for
      before the first terminator request, then that terminator, numbered from 0; later requests,
      however many layers make them, leave no trace. */
  lemma {:induction false} WireTrace(start: string, calls: seq<Call>)
    requires forall c | c in calls :: !c.StartCall?
    ensures var s := AfterCalls(OPEN, [StartCall(start)] + calls);
            var events := EventsAfter(start, calls);
            && s.wire == Numbered(events)
            && Effective(calls) <= calls
            && ((exists c | c in calls :: c.Asked().Terminates()) ==> s.closed && CompleteStream(events))
            && (!(exists c | c in calls :: c.Asked().Terminates()) ==> !s.closed && Effective(calls) == calls)
  {
    RunState(start, calls);
    EffectiveShape(calls);
    if Ended(Effective(calls)) {
      EndedIsComplete(start, Effective(calls));
    }
  }

  // ---- the layers over one sink: the agent, the executor's fail, the trigger's sess.Fail

  /** A call on the executor-facing sink. */
  datatype SinkCall = Sent(event: Event) | Closed(term: Event)

  /** streamSinkAdapter: anything but a complete terminator becomes Fail. */
  function Adapted(c: SinkCall): Call {
    match c
    case Sent(e) => SendCall(e)
    case Closed(t) => if t.kind.Complete? then CompleteCall(t.data) else FailCall(t.data)
  }

  function AdaptedAll(cs: seq<SinkCall>): seq<Call> {
    seq(|cs|, i requires 0 <= i < |cs| => Adapted(cs[i]))
  }

  /** Every call one streaming request makes after Start: the agent's, then one more close by the
      executor when the agent returned an error, then one by the trigger when Emit did. */
  function LayeredCalls(agent: seq<SinkCall>, agentErr: Option<string>, emitErr: Option<string>): seq<Call> {
    AdaptedAll(agent)
    + (if agentErr.Some? then [FailCall(agentErr.value)] else [])
    + (if emitErr.Some? then [FailCall(emitErr.value)] else [])
  }

  /** handleStreaming over Executor.Run over the agent's Process. */
  method ServeStreaming(start: string, agent: seq<SinkCall>, agentErr: Option<string>, emitErr: Option<string>)
    returns (sess: Session)
    ensures fresh(sess)
    ensures sess.State() ==
            AfterCalls(OPEN, [StartCall(start)] + LayeredCalls(agent, agentErr, emitErr))
  {
    sess := new Session();
    var ok := sess.Do(StartCall(start));
    ghost var s0 := OPEN;
    ghost var calls := [StartCall(start)];
    assert calls[..0] == [];
    for i := 0 to |agent|
      invariant calls == [StartCall(start)] + AdaptedAll(agent[..i])
      invariant sess.State() == AfterCalls(s0, calls)
    {
      ok := sess.Do(Adapted(agent[i]));
      assert (calls + [Adapted(agent[i])])[..|calls|] == calls;
      calls := calls + [Adapted(agent[i])];
      assert AdaptedAll(agent[..i + 1]) == AdaptedAll(agent[..i]) + [Adapted(agent[i])];
    }
    assert agent[..|agent|] == agent;
    if agentErr.Some? {
      ok := sess.Do(FailCall(agentErr.value));
      assert (calls + [FailCall(agentErr.value)])[..|calls|] == calls;
      calls := calls + [FailCall(agentErr.value)];
    }
    if emitErr.Some? {
      ok := sess.Do(FailCall(emitErr.value));
      assert (calls + [FailCall(emitErr.value)])[..|calls|] == calls;
      calls := calls + [FailCall(emitErr.value)];
    }
    assert calls == [StartCall(start)] + LayeredCalls(agent, agentErr, emitErr);
  }

  /** What the agent sent, in order. */
  function SentEvents(cs: seq<SinkCall>): seq<Event> {
    if cs == [] then [] else
    SentEvents(cs[..|cs| - 1]) + if cs[|cs| - 1].Sent? then [cs[|cs| - 1].event] else []
  }

  lemma {:induction false} SentAsIs(sent: seq<SinkCall>)
    requires forall c | c in sent :: c.Sent?
    ensures Events(AdaptedAll(sent)) == SentEvents(sent)
  {
    if sent != [] {
      var head, last := sent[..|sent| - 1], sent[|sent| - 1];
      SentAsIs(head);
      assert last in sent;
      assert Events(AdaptedAll(sent)) == Events(AdaptedAll(head)) + [last.event];
    }
  }

  lemma {:induction false} EffectiveQuiet(calls: seq<Call>)
    requires forall c | c in calls :: !c.Asked().Terminates()
    ensures Effective(calls) == calls && !Ended(calls)
  {
    EffectiveShape(calls);
    if calls != [] {
      assert calls[|calls| - 1] in calls;
    }
  }

  predicate Quiet(sent: seq<SinkCall>) { forall c | c in sent :: c.Sent? && !c.event.Terminates() && !c.event.kind.Start? }

  /** After the start and these calls of the agent, closed by one last event. */
  function ClosedBy(start: string, sent: seq<SinkCall>, last: Event): seq<Event> {
    [Event(Kind.Start, start)] + SentEvents(sent) + [last]
  }

  lemma {:induction false} EventsUpTo(start: string, sent: seq<SinkCall>, end: Call, more: seq<Call>)
    requires Quiet(sent) && end.Asked().Terminates()
    ensures EventsAfter(start, AdaptedAll(sent) + [end] + more) == ClosedBy(start, sent, end.Asked())
  {
    QuietCalls(sent);
    EffectiveUpTo(AdaptedAll(sent), end, more);
    SentAsIs(sent);
    assert Events(AdaptedAll(sent) + [end]) == Events(AdaptedAll(sent)) + [end.Asked()];
    assert [Event(Kind.Start, start)] + (SentEvents(sent) + [end.Asked()]) == ClosedBy(start, sent, end.Asked());
  }

  lemma {:induction false} NoStart(sent: seq<SinkCall>, end: Call, more: seq<Call>)
    requires Quiet(sent) && !end.StartCall? && forall c | c in more :: !c.StartCall?
    ensures forall c | c in AdaptedAll(sent) + [end] + more :: !c.StartCall?
  {
    QuietCalls(sent);
  }

  lemma {:induction false} FirstTerminator(start: string, sent: seq<SinkCall>, end: Call, more: seq<Call>)
    requires Quiet(sent) && end.Asked().Terminates() && !end.StartCall? && forall c | c in more :: !c.StartCall?
    ensures var s := AfterCalls(OPEN, [StartCall(start)] + (AdaptedAll(sent) + [end] + more));
            && s.closed && s.wire == Numbered(ClosedBy(start, sent, end.Asked())) && CompleteStream(ClosedBy(start, sent, end.Asked()))
  {
    var calls := AdaptedAll(sent) + [end] + more;
    NoStart(sent, end, more);
    WireTrace(start, calls);
    EventsUpTo(start, sent, end, more);
    assert calls[|AdaptedAll(sent)|] == end;
    assert end in calls;
  }

  lemma {:induction false} QuietCalls(sent: seq<SinkCall>)
    requires Quiet(sent)
    ensures forall c | c in AdaptedAll(sent) :: !c.StartCall? && !c.Asked().Terminates()
  {
    forall c | c in AdaptedAll(sent) ensures !c.StartCall? && !c.Asked().Terminates() {
      var i :| 0 <= i < |sent| && AdaptedAll(sent)[i] == c;
      assert sent[i] in sent;
    }
  }

  lemma {:induction false} NoTerminator(start: string, sent: seq<SinkCall>)
    requires Quiet(sent)
    ensures var s := AfterCalls(OPEN, [StartCall(start)] + AdaptedAll(sent));
            !s.closed && s.wire == Numbered([Event(Kind.Start, start)] + SentEvents(sent))
  {
    QuietCalls(sent);
    WireTrace(start, AdaptedAll(sent));
    EffectiveQuiet(AdaptedAll(sent));
    SentAsIs(sent);
  }

  function EmitClose(emitErr: Option<string>): seq<Call> { if emitErr.Some? then [FailCall(emitErr.value)] else [] }

  function AgentClose(agentErr: Option<string>): seq<Call> { if agentErr.Some? then [FailCall(agentErr.value)] else [] }

  /** An agent that closes nothing: its error is the terminator or, when it returned none, the one Emit
      returned; with neither the stream stays open, and the client has just what was sent. */
  lemma {:induction false} OuterLayersClose(start: string, sent: seq<SinkCall>, agentErr: Option<string>, emitErr: Option<string>)
    requires Quiet(sent)
    ensures var s := AfterCalls(OPEN, [StartCall(start)] + LayeredCalls(sent, agentErr, emitErr));
            var err := if agentErr.Some? then agentErr else emitErr;
            if err.None? then !s.closed && s.wire == Numbered([Event(Kind.Start, start)] + SentEvents(sent))
            else
              && s.closed && s.wire == Numbered(ClosedBy(start, sent, Event(Kind.Error, err.value)))
              && CompleteStream(ClosedBy(start, sent, Event(Kind.Error, err.value)))
  {
    var calls := LayeredCalls(sent, agentErr, emitErr);
    if agentErr.Some? {
      FirstTerminator(start, sent, FailCall(agentErr.value), EmitClose(emitErr));
      assert calls == AdaptedAll(sent) + [FailCall(agentErr.value)] + EmitClose(emitErr);
    } else if emitErr.Some? {
      FirstTerminator(start, sent, FailCall(emitErr.value), []);
      assert calls == AdaptedAll(sent) + [FailCall(emitErr.value)] + [];
    } else {
      NoTerminator(start, sent);
      assert calls == AdaptedAll(sent);
    }
  }

  lemma {:induction false} CallsAfterClose(sent: seq<SinkCall>, term: Event, agentErr: Option<string>, emitErr: Option<string>)
    ensures LayeredCalls(sent + [Closed(term)], agentErr, emitErr) == AdaptedAll(sent) + [Adapted(Closed(term))] + (AgentClose(agentErr) + EmitClose(emitErr))
  {
    assert AdaptedAll(sent + [Closed(term)]) == AdaptedAll(sent) + [Adapted(Closed(term))];
  }

  /** An agent that ends its own calls with one close keeps that close, as a complete event or, whatever
      else it is, an error: the outer layers' requests change nothing. */
  lemma {:induction false} AgentTerminatorWins(start: string, sent: seq<SinkCall>, term: Event, agentErr: Option<string>, emitErr: Option<string>)
    requires Quiet(sent)
    ensures var s := AfterCalls(OPEN, [StartCall(start)] + LayeredCalls(sent + [Closed(term)], agentErr, emitErr));
            var last := Event(if term.kind.Complete? then Kind.Complete else Kind.Error, term.data);
            s.closed && s.wire == Numbered(ClosedBy(start, sent, last)) && CompleteStream(ClosedBy(start, sent, last))
  {
    var end, more := Adapted(Closed(term)), AgentClose(agentErr) + EmitClose(emitErr);
    FirstTerminator(start, sent, end, more);
    CallsAfterClose(sent, term, agentErr, emitErr);
  }

  lemma {:induction false} EffectiveUpTo(quiet: seq<Call>, end: Call, more: seq<Call>)
    requires end.Asked().Terminates() && forall c | c in quiet :: !c.Asked().Terminates()
    ensures Effective(quiet + [end] + more) == quiet + [end]
  {
    var all := quiet + [end] + more;
    if more == [] {
      assert all[..|all| - 1] == quiet;
      EffectiveShape(quiet);
    } else {
      assert all[..|all| - 1] == quiet + [end] + more[..|more| - 1];
      EffectiveUpTo(quiet, end, more[..|more| - 1]);
    }
  }
}
