/** The plain stream client (DoStreamingRequest in pkg/transport/natsstream/client.go) in the same
    style as EngineStream: here delivery takes no lock, so a closer other than the subscription
    callback can close the channel under a send. */
module StreamClient {
  import opened StreamProtocol
  import opened Wrappers

  const CAPACITY := 32

  /** A message on the inbox: unparseable, or the server's event number n. */
  datatype Msg = Malformed | Stream(n: nat)

  /** Thread 0 is the subscription callback; Select is its select, with the event's number. */
  datatype Pc = Rest | Select(n: nat, last: bool) | OnceEnter | CloseDone | CloseEvents | OnceExit {
    predicate InOnce() { CloseDone? || CloseEvents? || OnceExit? }
  }

  datatype Once = Fresh | Running(t: nat) | Done

  datatype State = State(
    once: Once, doneClosed: bool, eventsClosed: bool,
    buffer: seq<nat>, received: seq<nat>, nextSeq: nat, pcs: seq<Pc>, panicked: bool)
  {
    function Sent(): seq<nat> { received + buffer }
  }

  datatype Step =
    | Arrive(m: Msg)
    | Begin(t: nat)
    | Send
    | Drop
    | EnterOnce(t: nat)
    | RunOnce(t: nat)
    | Receive

  function Init(closers: nat): State {
    State(Fresh, false, false, [], [], 0, seq(closers + 1, _ => Rest), false)
  }

  predicate Enabled(server: seq<Event>, s: State, step: Step)
    requires |s.pcs| > 0
  {
    !s.panicked &&
    match step
    case Arrive(m) => s.pcs[0].Rest? && (m.Stream? ==> m.n < |server|)
    case Begin(t) => 0 < t < |s.pcs| && s.pcs[t].Rest?
    case Send => s.pcs[0].Select? && (|s.buffer| < CAPACITY || s.eventsClosed)
    case Drop => s.pcs[0].Select? && s.doneClosed
    case EnterOnce(t) => t < |s.pcs| && s.pcs[t].OnceEnter? && !s.once.Running?
    case RunOnce(t) => t < |s.pcs| && s.pcs[t].InOnce()
    case Receive => |s.buffer| > 0
  }

  function Move(s: State, t: nat, pc: Pc): State
    requires t < |s.pcs|
  {
    s.(pcs := s.pcs[t := pc])
  }

  function Apply(server: seq<Event>, s: State, step: Step): State
    requires |s.pcs| > 0 && Enabled(server, s, step)
  {
    match step
    case Arrive(m) =>
      if m.Malformed? || m.n != s.nextSeq then s
      else Move(s, 0, Select(m.n, server[m.n].Terminates())).(nextSeq := m.n + 1)
    case Begin(t) => Move(s, t, OnceEnter)
    case Send =>
      if s.eventsClosed then s.(panicked := true)
      else Move(s, 0, if s.pcs[0].last then OnceEnter else Rest).(buffer := s.buffer + [s.pcs[0].n])
    case Drop => Move(s, 0, Rest)
    case EnterOnce(t) =>
      if s.once.Done? then Move(s, t, Rest) else Move(s.(once := Running(t)), t, CloseDone)
    case RunOnce(t) =>
      (match s.pcs[t]
       case CloseDone => if s.doneClosed then s.(panicked := true) else Move(s.(doneClosed := true), t, CloseEvents)
       case CloseEvents => if s.eventsClosed then s.(panicked := true) else Move(s.(eventsClosed := true), t, OnceExit)
       case _ => Move(s.(once := Done), t, Rest))
    case Receive => s.(received := s.received + [s.buffer[0]], buffer := s.buffer[1..])
  }

  function Exec(server: seq<Event>, closers: nat, run: seq<Step>): (r: Option<State>)
    ensures r.Some? ==> |r.value.pcs| == closers + 1
  {
    if run == [] then Some(Init(closers)) else
    match Exec(server, closers, run[..|run| - 1])
    case None => None
    case Some(s) =>
      var step := run[|run| - 1];
      if Enabled(server, s, step) then Some(Apply(server, s, step)) else None
  }

  ghost predicate Thread(s: State, t: nat)
    requires t < |s.pcs|
  {
    && (s.pcs[t].InOnce() <==> s.once == Running(t))
    && (s.pcs[t].Select? ==> t == 0)
  }

  function Front(k: nat): seq<nat> { seq(k, i requires 0 <= i < k => i) }

  ghost predicate Increasing(items: seq<nat>, bound: nat) {
    && (forall i | 0 <= i < |items| :: items[i] < bound)
    && forall i, j | 0 <= i < j < |items| :: items[i] < items[j]
  }

  function Bound(s: State): nat
    requires |s.pcs| > 0
  {
    if s.pcs[0].Select? then s.pcs[0].n else s.nextSeq
  }

  ghost predicate Inv(server: seq<Event>, s: State) {
    && |s.pcs| > 0 && |s.buffer| <= CAPACITY
    && (forall t | 0 <= t < |s.pcs| :: Thread(s, t))
    && (s.once.Running? ==> s.once.t < |s.pcs|)
    && (s.doneClosed <==> s.once.Done? || (s.once.Running? && !s.pcs[s.once.t].CloseDone?))
    && (s.eventsClosed <==> s.once.Done? || (s.once.Running? && s.pcs[s.once.t].OnceExit?))
    && s.nextSeq <= |server|
    && (s.pcs[0].Select? ==> s.pcs[0].n + 1 == s.nextSeq && s.pcs[0].last == server[s.pcs[0].n].Terminates())
    && Increasing(s.Sent(), Bound(s))
    && (!s.doneClosed ==> s.Sent() == Front(Bound(s)))
  }

  lemma {:induction false} InvStepDelivery(server: seq<Event>, s: State, step: Step)
    requires Inv(server, s) && Enabled(server, s, step)
    requires step.Arrive? || step.Drop? || step.Receive?
    ensures Inv(server, Apply(server, s, step))
  {
    var s' := Apply(server, s, step);
    assert Thread(s, 0);
    forall t | 0 <= t < |s.pcs| ensures Thread(s', t) {
      assert Thread(s, t);
    }
    assert s'.Sent() == s.Sent();
  }

  lemma {:induction false} InvStepSend(server: seq<Event>, s: State)
    requires Inv(server, s) && Enabled(server, s, Send)
    ensures Inv(server, Apply(server, s, Send))
  {
    var s' := Apply(server, s, Send);
    assert Thread(s, 0);
    forall t | 0 <= t < |s.pcs| ensures Thread(s', t) {
      assert Thread(s, t);
    }
    if !s.eventsClosed {
      assert s'.Sent() == s.Sent() + [s.pcs[0].n];
      assert Front(s.pcs[0].n) + [s.pcs[0].n] == Front(s.nextSeq);
    }
  }

  lemma {:induction false} InvStepClosing(server: seq<Event>, s: State, step: Step)
    requires Inv(server, s) && Enabled(server, s, step)
    requires step.Begin? || step.EnterOnce? || step.RunOnce?
    ensures Inv(server, Apply(server, s, step))
  {
    var s' := Apply(server, s, step);
    assert Thread(s, 0) && Thread(s, step.t);
    forall t | 0 <= t < |s.pcs| ensures Thread(s', t) {
      assert Thread(s, t);
    }
    assert s'.Sent() == s.Sent();
  }

  lemma {:induction false} InvHolds(server: seq<Event>, closers: nat, run: seq<Step>)
    requires Exec(server, closers, run).Some?
    ensures Inv(server, Exec(server, closers, run).value)
  {
    if run == [] {
      assert Init(closers).Sent() == Front(0);
    } else {
      var head, step := run[..|run| - 1], run[|run| - 1];
      InvHolds(server, closers, head);
      var s := Exec(server, closers, head).value;
      if step.Begin? || step.EnterOnce? || step.RunOnce? {
        InvStepClosing(server, s, step);
      } else if step.Send? {
        InvStepSend(server, s);
      } else {
        InvStepDelivery(server, s, step);
      }
    }
  }

  /** Before done closes, exactly the server's events 0..k-1 have been handed over; afterwards the
      numbers still increase. */
  lemma {:induction false} HandsOverInOrder(server: seq<Event>, closers: nat, run: seq<Step>)
    requires Exec(server, closers, run).Some?
    ensures var s := Exec(server, closers, run).value;
            && Increasing(s.Sent(), |server|)
            && (!s.doneClosed ==> exists k | 0 <= k <= |server| :: s.Sent() == Front(k))
  {
    InvHolds(server, closers, run);
  }

  /** With no closer but the callback itself, closing means the terminator was the last event taken. */
  ghost predicate Alone(server: seq<Event>, s: State) {
    && |s.pcs| == 1 && !s.panicked
    && (s.once.Fresh? || s.nextSeq == |server|)
    && (s.pcs[0].OnceEnter? || s.pcs[0].InOnce() ==> s.nextSeq == |server|)
    && (s.pcs[0].Select? || s.pcs[0].OnceEnter? ==> s.once.Fresh?)
  }

  lemma {:induction false} AloneHolds(server: seq<Event>, run: seq<Step>)
    requires CompleteStream(server) && Exec(server, 0, run).Some?
    ensures Alone(server, Exec(server, 0, run).value)
  {
    if run != [] {
      var head, step := run[..|run| - 1], run[|run| - 1];
      AloneHolds(server, head);
      InvHolds(server, 0, head);
      assert Thread(Exec(server, 0, head).value, 0);
    }
  }

  lemma {:induction false} ExecOne(server: seq<Event>, closers: nat, run: seq<Step>, k: nat, s: State)
    requires k < |run| && Exec(server, closers, run[..k]) == Some(s) && |s.pcs| == closers + 1
    requires Enabled(server, s, run[k])
    ensures Exec(server, closers, run[..k + 1]) == Some(Apply(server, s, run[k]))
  {
    assert run[..k + 1][..k] == run[..k];
  }

  /** A closer closes both channels while the callback is between its sequence check and its select. */
  const PANIC_RUN: seq<Step> := [Arrive(Stream(0)), Begin(1), EnterOnce(1), RunOnce(1), RunOnce(1), Send]

  lemma {:induction false} LateSendPanics(server: seq<Event>, closers: nat)
    requires closers > 0 && |server| > 0
    ensures Exec(server, closers, PANIC_RUN).Some? && Exec(server, closers, PANIC_RUN).value.panicked
  {
    PanicFirst(server, closers);
    PanicSecond(server, closers);
    assert PANIC_RUN[..6] == PANIC_RUN;
  }

  /** The closer is about to close the events channel; the callback is at its select. */
  function AboutToClose(server: seq<Event>, closers: nat): State
    requires closers > 0 && |server| > 0
  {
    var s := Init(closers);
    s.(nextSeq := 1, once := Running(1), pcs := s.pcs[0 := Select(0, server[0].Terminates())][1 := CloseDone])
  }

  lemma {:induction false} PanicFirst(server: seq<Event>, closers: nat)
    requires closers > 0 && |server| > 0
    ensures Exec(server, closers, PANIC_RUN[..3]) == Some(AboutToClose(server, closers))
  {
    var s0 := Init(closers);
    assert PANIC_RUN[..0] == [];
    ExecOne(server, closers, PANIC_RUN, 0, s0);
    var s1 := s0.(nextSeq := 1, pcs := s0.pcs[0 := Select(0, server[0].Terminates())]);
    ExecOne(server, closers, PANIC_RUN, 1, s1);
    var s2 := s1.(pcs := s1.pcs[1 := OnceEnter]);
    ExecOne(server, closers, PANIC_RUN, 2, s2);
    assert s2.pcs[1 := CloseDone] == s1.pcs[1 := CloseDone];
  }

  lemma {:induction false} PanicSecond(server: seq<Event>, closers: nat)
    requires closers > 0 && |server| > 0
    requires Exec(server, closers, PANIC_RUN[..3]) == Some(AboutToClose(server, closers))
    ensures Exec(server, closers, PANIC_RUN[..6]).Some? && Exec(server, closers, PANIC_RUN[..6]).value.panicked
  {
    var s3 := AboutToClose(server, closers);
    ExecOne(server, closers, PANIC_RUN, 3, s3);
    var s4 := s3.(doneClosed := true, pcs := s3.pcs[1 := CloseEvents]);
    ExecOne(server, closers, PANIC_RUN, 4, s4);
    var s5 := s4.(eventsClosed := true, pcs := s4.pcs[1 := OnceExit]);
    ExecOne(server, closers, PANIC_RUN, 5, s5);
  }

  /** Against a complete server stream this client never panics exactly when nobody else can close
      it: no request timeout and no consumer calling Close while the callback may run. */
  lemma {:induction false} PanicFreeIff(server: seq<Event>, closers: nat)
    requires CompleteStream(server)
    ensures (forall run | Exec(server, closers, run).Some? :: !Exec(server, closers, run).value.panicked) <==> closers == 0
  {
    if closers > 0 {
      LateSendPanics(server, closers);
    } else {
      forall run | Exec(server, closers, run).Some? ensures !Exec(server, closers, run).value.panicked {
        AloneHolds(server, run);
      }
    }
  }

  // ---- gaps: exactly when someone else may close

  lemma {:induction false} AloneHasNoGap(server: seq<Event>, run: seq<Step>)
    requires CompleteStream(server) && Exec(server, 0, run).Some?
    ensures exists k: nat :: Exec(server, 0, run).value.Sent() == Front(k)
  {
    var s := Exec(server, 0, run).value;
    InvHolds(server, 0, run);
    if !s.doneClosed {
      assert s.Sent() == Front(Bound(s));
    } else {
      var head, step := run[..|run| - 1], run[|run| - 1];
      AloneHasNoGap(server, head);
      AloneHolds(server, head);
      InvHolds(server, 0, head);
      NothingSentLate(server, Exec(server, 0, head).value, step);
    }
  }

  lemma {:induction false} NothingSentLate(server: seq<Event>, s: State, step: Step)
    requires Inv(server, s) && Alone(server, s) && Enabled(server, s, step)
    requires Apply(server, s, step).doneClosed
    ensures Apply(server, s, step).Sent() == s.Sent()
  {
    assert Thread(s, 0);
    assert !step.Send?;
  }

  /** A closer has closed done but not yet the events channel: event 0 is dropped, event 1 sent. */
  const GAP_RUN: seq<Step> := [Begin(1), EnterOnce(1), RunOnce(1), Arrive(Stream(0)), Drop, Arrive(Stream(1)), Send]

  /** n events have arrived since and none was sent. */
  function DoneOnly(closers: nat, n: nat): State
    requires closers > 0
  {
    var s := Init(closers);
    s.(once := Running(1), doneClosed := true, nextSeq := n, pcs := s.pcs[1 := CloseEvents])
  }

  lemma {:induction false} GapDone(server: seq<Event>, closers: nat)
    requires closers > 0
    ensures Exec(server, closers, GAP_RUN[..3]) == Some(DoneOnly(closers, 0))
  {
    var s0 := Init(closers);
    assert GAP_RUN[..0] == [];
    ExecOne(server, closers, GAP_RUN, 0, s0);
    var s1 := Move(s0, 1, OnceEnter);
    ExecOne(server, closers, GAP_RUN, 1, s1);
    var s2 := Move(s1.(once := Running(1)), 1, CloseDone);
    ExecOne(server, closers, GAP_RUN, 2, s2);
    assert s2.pcs[1 := CloseEvents] == s0.pcs[1 := CloseEvents];
  }

  lemma {:induction false} GapDrops(server: seq<Event>, closers: nat)
    requires closers > 0 && |server| > 0
    requires Exec(server, closers, GAP_RUN[..3]) == Some(DoneOnly(closers, 0))
    ensures Exec(server, closers, GAP_RUN[..5]) == Some(DoneOnly(closers, 1))
  {
    var s := DoneOnly(closers, 0);
    ExecOne(server, closers, GAP_RUN, 3, s);
    var s' := Move(DoneOnly(closers, 1), 0, Select(0, server[0].Terminates()));
    ExecOne(server, closers, GAP_RUN, 4, s');
    assert s'.pcs[0 := Rest] == DoneOnly(closers, 1).pcs;
  }

  /** The first thing the consumer gets is event 1. */
  lemma {:induction false} GapAfterDone(server: seq<Event>, closers: nat)
    requires CompleteStream(server) && closers > 0
    ensures Exec(server, closers, GAP_RUN).Some? && Exec(server, closers, GAP_RUN).value.Sent() == [1]
  {
    GapDone(server, closers);
    GapDrops(server, closers);
    ExecOne(server, closers, GAP_RUN, 5, DoneOnly(closers, 1));
    ExecOne(server, closers, GAP_RUN, 6, Move(DoneOnly(closers, 2), 0, Select(1, server[1].Terminates())));
    assert GAP_RUN[..7] == GAP_RUN;
  }

  /** Against a complete server stream the consumer gets events 0..k-1 without a gap, in every
      interleaving, exactly when nobody but the callback can close. */
  lemma {:induction false} GapFreeIff(server: seq<Event>, closers: nat)
    requires CompleteStream(server)
    ensures (forall run | Exec(server, closers, run).Some? :: exists k: nat :: Exec(server, closers, run).value.Sent() == Front(k))
            <==> closers == 0
  {
    if closers > 0 {
      GapAfterDone(server, closers);
      forall k: nat ensures [1] != Front(k) {
        assert k > 0 ==> Front(k)[0] == 0;
      }
    } else {
      forall run | Exec(server, closers, run).Some? ensures exists k: nat :: Exec(server, closers, run).value.Sent() == Front(k) {
        AloneHasNoGap(server, run);
      }
    }
  }
}
