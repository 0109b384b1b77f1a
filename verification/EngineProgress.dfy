/** Progress of the bridge's stream client (pkg/rsassistant/stream.go): begun threads always finish, and a
    run in which every event arrives delivers everything. */
module EngineProgress {
  import opened StreamProtocol
  import opened Wrappers
  import opened EngineSafety
  import opened EngineStream

  function TotalRank(pcs: seq<Pc>): nat {
    if pcs == [] then 0 else TotalRank(pcs[..|pcs| - 1]) + pcs[|pcs| - 1].Rank()
  }

  lemma {:induction false} RankDrops(pcs: seq<Pc>, t: nat, pc: Pc)
    requires t < |pcs|
    ensures TotalRank(pcs[t := pc]) == TotalRank(pcs) - pcs[t].Rank() + pc.Rank()
  {
    var n := |pcs| - 1;
    if t == n {
      assert pcs[t := pc][..n] == pcs[..n];
    } else {
      RankDrops(pcs[..n], t, pc);
      assert pcs[t := pc][..n] == pcs[..n][t := pc];
    }
  }

  /** Every step a begun thread takes brings the threads nearer to rest, whatever the schedule. */
  lemma {:induction false} InternalStepsRunOut(server: seq<Event>, s: State, step: Step)
    requires Inv(server, s) && Enabled(server, s, step) && step.Internal()
    ensures TotalRank(Apply(server, s, step).pcs) < TotalRank(s.pcs)
  {
    var s' := Apply(server, s, step);
    var t := step.Actor();
    assert Thread(s, t);
    assert s'.pcs == s.pcs[t := s'.pcs[t]];
    RankDrops(s.pcs, t, s'.pcs[t]);
  }

  /** A thread that has begun is never stuck for good: once done is closed, or while the buffer has
      room, some begun thread can move. A deliver blocked on a full buffer is released by done. */
  lemma {:induction false} SomeThreadMoves(server: seq<Event>, s: State, t: nat)
    requires Inv(server, s) && t < |s.pcs| && !s.pcs[t].Rest?
    requires s.doneClosed || |s.buffer| < CAPACITY
    ensures exists step: Step :: step.Internal() && Enabled(server, s, step)
  {
    if s.mu.Some? {
      var h := s.mu.value;
      assert Thread(s, h);
      var pc := s.pcs[h];
      var step := if pc.DeliverSelect? then (if s.doneClosed then Drop else Send)
                  else if pc.CloseEvents? then CloseChannel(h) else Release(h);
      assert step.Internal() && Enabled(server, s, step);
    } else {
      assert Thread(s, t);
      var pc := s.pcs[t];
      if pc.OnceEnter? && s.once.Running? {
        var r := s.once.t;
        assert Thread(s, r);
        var step := if s.pcs[r].OnceBody? then RunOnce(r) else ExitOnce(r);
        assert step.Internal() && Enabled(server, s, step);
      } else {
        var step := if pc.OnceEnter? then EnterOnce(t) else if pc.OnceBody? then RunOnce(t)
                    else if pc.OnceExit? then ExitOnce(t) else Acquire(t);
        assert step.Internal() && Enabled(server, s, step);
      }
    }
  }

  /** Whenever a closer waits for mu, some begun thread can move: done is closed by then. */
  lemma {:induction false} WaitingCloserIsServed(server: seq<Event>, closers: nat, run: seq<Step>, t: nat)
    requires Exec(server, closers, run).Some?
    requires t <= closers && Exec(server, closers, run).value.pcs[t].CloseLock?
    ensures exists step: Step :: step.Internal() && Enabled(server, Exec(server, closers, run).value, step)
  {
    InvHolds(server, closers, run);
    var s := Exec(server, closers, run).value;
    assert Thread(s, t);
    SomeThreadMoves(server, s, t);
  }

  /** When no begun thread can move after done has closed, all have finished and the consumer's
      channel is closed. With InternalStepsRunOut: every schedule gets there. */
  lemma {:induction false} CloseCompletes(server: seq<Event>, closers: nat, run: seq<Step>)
    requires Exec(server, closers, run).Some? && Exec(server, closers, run).value.doneClosed
    requires forall step: Step | step.Internal() :: !Enabled(server, Exec(server, closers, run).value, step)
    ensures var s := Exec(server, closers, run).value;
            s.eventsClosed && forall t | 0 <= t < |s.pcs| :: s.pcs[t].Rest?
  {
    InvHolds(server, closers, run);
    var s := Exec(server, closers, run).value;
    assert s.mu.Some? ==> Thread(s, s.mu.value);
    assert s.once.Running? ==> Thread(s, s.once.t);
    forall t | 0 <= t < |s.pcs| ensures s.pcs[t].Rest? {
      if !s.pcs[t].Rest? {
        SomeThreadMoves(server, s, t);
      }
    }
  }

  // ---- the undisturbed run: nobody else closes, and no reply ends the stream early

  /** No closer begins, and only stream messages arrive: repeated, out of turn or unreadable ones too. */
  predicate Undisturbed(run: seq<Step>) {
    run == [] ||
    var step := run[|run| - 1];
    && Undisturbed(run[..|run| - 1]) && !step.Begin?
    && (step.Arrive? ==> step.m.Stream? || step.m.Malformed?)
  }

  /** How many of the server's events 0, 1, 2, ... have arrived, each after the one before it. */
  function Arrivals(run: seq<Step>): nat {
    if run == [] then 0 else
    var before := Arrivals(run[..|run| - 1]);
    if run[|run| - 1] == Arrive(Stream(before)) then before + 1 else before
  }

  function PendingItems(s: State): seq<Item>
    requires |s.pcs| > 0
  {
    if s.pcs[0].Pending() then [s.pcs[0].item] else []
  }

  /** Thread 0 alone is at work; what it has handed over or holds is exactly what has arrived. */
  ghost predicate InStep(server: seq<Event>, s: State, arrived: nat) {
    && |s.pcs| > 0
    && s.nextSeq == arrived <= |server|
    && s.Sent() + PendingItems(s) == Front(arrived)
    && (forall t | 0 < t < |s.pcs| :: s.pcs[t].Rest?)
    && match s.pcs[0]
       case Rest => s.doneClosed <==> arrived == |server|
       case DeliverLock(_, last) => !s.doneClosed && (last <==> arrived == |server|)
       case DeliverSelect(_, last) => !s.doneClosed && (last <==> arrived == |server|)
       case DeliverUnlock(last) => !s.doneClosed && (last <==> arrived == |server|)
       case _ => arrived == |server|
  }

  lemma {:induction false} InStepArrive(server: seq<Event>, s: State, arrived: nat)
    requires CompleteStream(server) && Inv(server, s) && InStep(server, s, arrived)
    requires Enabled(server, s, Arrive(Stream(arrived)))
    ensures InStep(server, Apply(server, s, Arrive(Stream(arrived))), arrived + 1)
  {
    var s' := Apply(server, s, Arrive(Stream(arrived)));
    assert s'.Sent() + PendingItems(s') == s.Sent() + PendingItems(s) + [Server(arrived)];
    assert Front(arrived) + [Server(arrived)] == Front(arrived + 1);
  }

  /** A message that is not the next event changes nothing. */
  lemma {:induction false} InStepIgnored(server: seq<Event>, s: State, m: Msg, arrived: nat)
    requires InStep(server, s, arrived) && Enabled(server, s, Arrive(m))
    requires m.Malformed? || (m.Stream? && m.n != arrived)
    ensures InStep(server, Apply(server, s, Arrive(m)), arrived)
  {
    assert Apply(server, s, Arrive(m)).Sent() == s.Sent();
  }

  lemma {:induction false} InStepOther(server: seq<Event>, s: State, step: Step, arrived: nat)
    requires Inv(server, s) && InStep(server, s, arrived)
    requires Enabled(server, s, step) && !step.Arrive? && !step.Begin?
    ensures InStep(server, Apply(server, s, step), arrived)
  {
    if step.Send? {
      InStepSend(server, s, arrived);
    } else {
      var s' := Apply(server, s, step);
      assert Thread(s, 0);
      assert s'.Sent() + PendingItems(s') == s.Sent() + PendingItems(s);
    }
  }

  lemma {:induction false} InStepSend(server: seq<Event>, s: State, arrived: nat)
    requires Inv(server, s) && InStep(server, s, arrived) && Enabled(server, s, Send)
    ensures InStep(server, Apply(server, s, Send), arrived)
  {
    var s' := Apply(server, s, Send);
    assert Thread(s, 0);
    assert s'.Sent() + PendingItems(s') == s.Sent() + PendingItems(s);
  }

  lemma {:induction false} UndisturbedStaysInStep(server: seq<Event>, closers: nat, run: seq<Step>)
    requires CompleteStream(server)
    requires Exec(server, closers, run).Some? && Undisturbed(run)
    ensures InStep(server, Exec(server, closers, run).value, Arrivals(run))
  {
    if run == [] {
      assert Init(closers).Sent() + PendingItems(Init(closers)) == Front(0);
    } else {
      var head, step := run[..|run| - 1], run[|run| - 1];
      UndisturbedStaysInStep(server, closers, head);
      InvHolds(server, closers, head);
      var s := Exec(server, closers, head).value;
      if step == Arrive(Stream(Arrivals(head))) {
        InStepArrive(server, s, Arrivals(head));
      } else if step.Arrive? {
        InStepIgnored(server, s, step.m, Arrivals(head));
      } else {
        InStepOther(server, s, step, Arrivals(head));
      }
    }
  }

  /** When every event has arrived in turn, whatever else did, and nothing is left to do, the consumer has
      read every event through the terminator, and the channel is closed. */
  lemma {:induction false} LosslessDeliversAll(server: seq<Event>, closers: nat, run: seq<Step>)
    requires CompleteStream(server)
    requires Exec(server, closers, run).Some? && Undisturbed(run) && Arrivals(run) == |server|
    requires forall step: Step | step.Internal() || step.Receive? :: !Enabled(server, Exec(server, closers, run).value, step)
    ensures var s := Exec(server, closers, run).value;
            s.received == Front(|server|) && s.eventsClosed
  {
    UndisturbedStaysInStep(server, closers, run);
    InvHolds(server, closers, run);
    var s := Exec(server, closers, run).value;
    assert !Enabled(server, s, Receive);
    assert s.Sent() == s.received;
    if !s.pcs[0].Rest? {
      SomeThreadMoves(server, s, 0);
    }
    CloseCompletes(server, closers, run);
  }
}
