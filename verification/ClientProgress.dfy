/** Progress of the plain stream client (pkg/transport/natsstream/client.go): a thread that has begun is
    never stuck, and a run in which every event arrives delivers everything. */
module ClientProgress {
  import opened StreamProtocol
  import opened Wrappers
  import opened StreamClient

  /** Steps a thread takes on its own once it has begun. */
  predicate Internal(step: Step) { !step.Arrive? && !step.Begin? && !step.Receive? }

  function Rank(pc: Pc): nat {
    match pc
    case Rest => 0
    case OnceExit => 1
    case CloseEvents => 2
    case CloseDone => 3
    case OnceEnter => 4
    case Select(_, _) => 5
  }

  function TotalRank(pcs: seq<Pc>): nat {
    if pcs == [] then 0 else TotalRank(pcs[..|pcs| - 1]) + Rank(pcs[|pcs| - 1])
  }

  lemma {:induction false} RankDrops(pcs: seq<Pc>, t: nat, pc: Pc)
    requires t < |pcs|
    ensures TotalRank(pcs[t := pc]) == TotalRank(pcs) - Rank(pcs[t]) + Rank(pc)
  {
    var n := |pcs| - 1;
    if t == n {
      assert pcs[t := pc][..n] == pcs[..n];
    } else {
      RankDrops(pcs[..n], t, pc);
      assert pcs[t := pc][..n] == pcs[..n][t := pc];
    }
  }

  /** Every step a begun thread takes, other than one that panics, brings the threads nearer to rest. */
  lemma {:induction false} InternalStepsRunOut(server: seq<Event>, s: State, step: Step)
    requires Inv(server, s) && Enabled(server, s, step) && Internal(step)
    ensures Apply(server, s, step).panicked || TotalRank(Apply(server, s, step).pcs) < TotalRank(s.pcs)
  {
    var s' := Apply(server, s, step);
    var t := if step.EnterOnce? || step.RunOnce? then step.t else 0;
    if !s'.panicked {
      assert s'.pcs == s.pcs[t := s'.pcs[t]];
      RankDrops(s.pcs, t, s'.pcs[t]);
    }
  }

  /** Once done is closed, or while the buffer has room, a begun thread leaves some begun thread a step:
      a callback blocked on a full buffer is released by done, a closer by the one inside closeOnce. */
  lemma {:induction false} SomeThreadMoves(server: seq<Event>, s: State, t: nat)
    requires Inv(server, s) && !s.panicked && t < |s.pcs| && !s.pcs[t].Rest?
    requires s.doneClosed || |s.buffer| < CAPACITY
    ensures exists step: Step :: Internal(step) && Enabled(server, s, step)
  {
    assert Thread(s, t);
    var pc := s.pcs[t];
    if pc.OnceEnter? && s.once.Running? {
      assert Thread(s, s.once.t);
      assert Internal(RunOnce(s.once.t)) && Enabled(server, s, RunOnce(s.once.t));
    } else {
      var step := if pc.Select? then (if s.doneClosed then Drop else Send)
                  else if pc.OnceEnter? then EnterOnce(t) else RunOnce(t);
      assert Internal(step) && Enabled(server, s, step);
    }
  }

  /** When no begun thread can move after done has closed, all have finished and the consumer's
      channel is closed, unless a send panicked. */
  lemma {:induction false} CloseCompletes(server: seq<Event>, closers: nat, run: seq<Step>)
    requires Exec(server, closers, run).Some?
    requires Exec(server, closers, run).value.doneClosed && !Exec(server, closers, run).value.panicked
    requires forall step: Step | Internal(step) :: !Enabled(server, Exec(server, closers, run).value, step)
    ensures var s := Exec(server, closers, run).value;
            s.eventsClosed && forall t | 0 <= t < |s.pcs| :: s.pcs[t].Rest?
  {
    InvHolds(server, closers, run);
    var s := Exec(server, closers, run).value;
    forall t | 0 <= t < |s.pcs| ensures s.pcs[t].Rest? {
      if !s.pcs[t].Rest? {
        SomeThreadMoves(server, s, t);
      }
    }
    assert s.once.Running? ==> Thread(s, s.once.t);
  }

  // ---- the undisturbed run: nobody else closes

  /** No closer begins; messages may be repeated, out of turn or unreadable. */
  predicate Undisturbed(run: seq<Step>) {
    run == [] || (Undisturbed(run[..|run| - 1]) && !run[|run| - 1].Begin?)
  }

  /** How many of the server's events 0, 1, 2, ... have arrived, each after the one before it. */
  function Arrivals(run: seq<Step>): nat {
    if run == [] then 0 else
    var before := Arrivals(run[..|run| - 1]);
    if run[|run| - 1] == Arrive(Stream(before)) then before + 1 else before
  }

  /** Thread 0 alone is at work; what it has handed over or holds is exactly what has arrived. */
  ghost predicate InStep(server: seq<Event>, s: State, arrived: nat) {
    && |s.pcs| > 0 && !s.panicked
    && s.nextSeq == arrived <= |server|
    && s.Sent() + (if s.pcs[0].Select? then [s.pcs[0].n] else []) == Front(arrived)
    && (forall t | 0 < t < |s.pcs| :: s.pcs[t].Rest?)
    && match s.pcs[0]
       case Rest => if arrived == |server| then s.once.Done? else s.once.Fresh?
       case Select(_, last) => s.once.Fresh? && (last <==> arrived == |server|)
       case OnceEnter => s.once.Fresh? && arrived == |server|
       case _ => arrived == |server|
  }

  lemma {:induction false} InStepArrive(server: seq<Event>, s: State, arrived: nat)
    requires CompleteStream(server) && Inv(server, s) && InStep(server, s, arrived)
    requires Enabled(server, s, Arrive(Stream(arrived)))
    ensures InStep(server, Apply(server, s, Arrive(Stream(arrived))), arrived + 1)
  {
    var s' := Apply(server, s, Arrive(Stream(arrived)));
    assert s'.Sent() == s.Sent();
    assert Front(arrived) + [arrived] == Front(arrived + 1);
  }

  /** A message that is not the next event changes nothing. */
  lemma {:induction false} InStepIgnored(server: seq<Event>, s: State, m: Msg, arrived: nat)
    requires InStep(server, s, arrived) && Enabled(server, s, Arrive(m)) && m != Stream(arrived)
    ensures InStep(server, Apply(server, s, Arrive(m)), arrived)
  {
    assert Apply(server, s, Arrive(m)).Sent() == s.Sent();
  }

  lemma {:induction false} InStepOther(server: seq<Event>, s: State, step: Step, arrived: nat)
    requires Inv(server, s) && InStep(server, s, arrived)
    requires Enabled(server, s, step) && !step.Arrive? && !step.Begin?
    ensures InStep(server, Apply(server, s, step), arrived)
  {
    var s' := Apply(server, s, step);
    assert Thread(s, 0);
    assert step.Receive? ==> s'.Sent() == s.Sent();
    assert step.Send? ==> s'.Sent() == s.Sent() + [s.pcs[0].n];
    assert !step.Drop?;
  }

  lemma {:induction false} UndisturbedStaysInStep(server: seq<Event>, closers: nat, run: seq<Step>)
    requires CompleteStream(server)
    requires Exec(server, closers, run).Some? && Undisturbed(run)
    ensures InStep(server, Exec(server, closers, run).value, Arrivals(run))
  {
    if run == [] {
      assert Init(closers).Sent() == Front(0);
    } else {
      var head, step := run[..|run| - 1], run[|run| - 1];
      UndisturbedStaysInStep(server, closers, head);
      InvHolds(server, closers, head);
      var s := Exec(server, closers, head).value;
      if step == Arrive(Stream(Arrivals(head))) {
        InStepArrive(server, s, Arrivals(head));
      } else if step.Arrive? {
        InStepIgnored(server, s, step.m, Arrivals(head));
      } else {
        InStepOther(server, s, step, Arrivals(head));
      }
    }
  }

  /** When every event has arrived in turn, whatever else did, and nothing is left to do, the consumer has
      read every event through the terminator, and the channel is closed. */
  lemma {:induction false} LosslessDeliversAll(server: seq<Event>, closers: nat, run: seq<Step>)
    requires CompleteStream(server)
    requires Exec(server, closers, run).Some? && Undisturbed(run) && Arrivals(run) == |server|
    requires forall step: Step | Internal(step) || step.Receive? :: !Enabled(server, Exec(server, closers, run).value, step)
    ensures var s := Exec(server, closers, run).value;
            s.received == Front(|server|) && s.eventsClosed && !s.panicked
  {
    UndisturbedStaysInStep(server, closers, run);
    InvHolds(server, closers, run);
    var s := Exec(server, closers, run).value;
    assert !Enabled(server, s, Receive);
    assert s.Sent() == s.received;
    if !s.pcs[0].Rest? {
      SomeThreadMoves(server, s, 0);
    }
  }
}
