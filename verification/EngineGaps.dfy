/** When the bridge's stream client (pkg/rsassistant/stream.go) may leave a gap in what it hands over:
    exactly when someone else may close it. */
module EngineGaps {
  import opened StreamProtocol
  import opened Wrappers
  import opened EngineSafety
  import opened EngineStream

  /** With thread 0 alone, nothing is sent once done is closed, so what was handed over stays a front. */
  ghost predicate Solo(s: State) {
    && |s.pcs| == 1
    && (s.doneClosed ==> s.closed || s.pcs[0].OnceExit? || s.pcs[0].CloseLock?)
    && exists k: nat :: IsFront(s.Sent(), k, true)
  }

  lemma {:induction false} SoloStep(server: seq<Event>, s: State, step: Step)
    requires Inv(server, s) && Solo(s) && Enabled(server, s, step)
    requires Inv(server, Apply(server, s, step))
    ensures Solo(Apply(server, s, step))
  {
    var s' := Apply(server, s, step);
    assert Thread(s, 0);
    if s'.doneClosed {
      assert !step.Send?;
      assert s'.Sent() == s.Sent();
    } else {
      assert IsFront(s'.Sent(), Bound(s'), true);
    }
  }

  lemma {:induction false} SoloHolds(server: seq<Event>, run: seq<Step>)
    requires Exec(server, 0, run).Some?
    ensures Solo(Exec(server, 0, run).value)
  {
    InvHolds(server, 0, run);
    if run == [] {
      assert IsFront(Init(0).Sent(), 0, true);
    } else {
      var head := run[..|run| - 1];
      SoloHolds(server, head);
      InvHolds(server, 0, head);
      SoloStep(server, Exec(server, 0, head).value, run[|run| - 1]);
    }
  }

  /** A closer has closed done but not yet set closed: event 0 is dropped and event 1 still sent. */
  const GAP_RUN: seq<Step> := [
    Begin(1), EnterOnce(1), RunOnce(1),
    Arrive(Stream(0)), Acquire(0), Drop, Release(0),
    Arrive(Stream(1)), Acquire(0), Send]

  lemma {:induction false} ExecOne(server: seq<Event>, closers: nat, run: seq<Step>, k: nat, s: State)
    requires k < |run| && Exec(server, closers, run[..k]) == Some(s) && |s.pcs| == closers + 1
    requires Enabled(server, s, run[k])
    ensures Exec(server, closers, run[..k + 1]) == Some(Apply(server, s, run[k]))
  {
    assert run[..k + 1][..k] == run[..k];
  }

  /** Closer 1 has closed done and not yet moved on; n events have arrived and none was sent. */
  function DoneOnly(closers: nat, n: nat): State
    requires closers > 0
  {
    var s := Init(closers);
    s.(once := Running(1), doneClosed := true, nextSeq := n, pcs := s.pcs[1 := OnceExit])
  }

  /** Event n of these has arrived and thread 0 is at its select. */
  function AtSelect(server: seq<Event>, closers: nat, n: nat): State
    requires closers > 0 && n < |server|
  {
    Move(DoneOnly(closers, n + 1).(mu := Some(0)), 0, DeliverSelect(Server(n), server[n].Terminates()))
  }

  lemma {:induction false} GapDone(server: seq<Event>, closers: nat)
    requires closers > 0
    ensures Exec(server, closers, GAP_RUN[..3]) == Some(DoneOnly(closers, 0))
  {
    var s0 := Init(closers);
    assert GAP_RUN[..0] == [];
    ExecOne(server, closers, GAP_RUN, 0, s0);
    var s1 := Move(s0, 1, OnceEnter);
    ExecOne(server, closers, GAP_RUN, 1, s1);
    var s2 := Move(s1.(once := Running(1)), 1, OnceBody);
    ExecOne(server, closers, GAP_RUN, 2, s2);
    assert s2.pcs[1 := OnceExit] == s0.pcs[1 := OnceExit];
  }

  /** Event n of these has arrived and thread 0 asks for mu. */
  function AtLock(server: seq<Event>, closers: nat, n: nat): State
    requires closers > 0 && n < |server|
  {
    Move(DoneOnly(closers, n + 1), 0, DeliverLock(Server(n), server[n].Terminates()))
  }

  lemma {:induction false} Arrives(server: seq<Event>, closers: nat, n: nat)
    requires closers > 0 && n < |server|
    ensures Enabled(server, DoneOnly(closers, n), Arrive(Stream(n)))
    ensures Apply(server, DoneOnly(closers, n), Arrive(Stream(n))) == AtLock(server, closers, n)
  {
  }

  lemma {:induction false} Locks0(server: seq<Event>, closers: nat, n: nat)
    requires closers > 0 && n < |server|
    ensures Enabled(server, AtLock(server, closers, n), Acquire(0))
    ensures Apply(server, AtLock(server, closers, n), Acquire(0)) == AtSelect(server, closers, n)
  {
    var s := AtLock(server, closers, n);
    assert s.pcs[0 := AtSelect(server, closers, n).pcs[0]] == AtSelect(server, closers, n).pcs;
  }

  lemma {:induction false} Takes(server: seq<Event>, closers: nat, run: seq<Step>, k: nat, n: nat)
    requires closers > 0 && k + 1 < |run| && n < |server|
    requires Exec(server, closers, run[..k]) == Some(DoneOnly(closers, n))
    requires run[k] == Arrive(Stream(n)) && run[k + 1] == Acquire(0)
    ensures Exec(server, closers, run[..k + 2]) == Some(AtSelect(server, closers, n))
  {
    Arrives(server, closers, n);
    ExecOne(server, closers, run, k, DoneOnly(closers, n));
    Locks0(server, closers, n);
    ExecOne(server, closers, run, k + 1, AtLock(server, closers, n));
  }

  lemma {:induction false} GapDrops(server: seq<Event>, closers: nat)
    requires closers > 0 && |server| > 0 && !server[0].Terminates()
    requires Exec(server, closers, GAP_RUN[..5]) == Some(AtSelect(server, closers, 0))
    ensures Exec(server, closers, GAP_RUN[..7]) == Some(DoneOnly(closers, 1))
  {
    var s := AtSelect(server, closers, 0);
    ExecOne(server, closers, GAP_RUN, 5, s);
    var s' := Move(s, 0, DeliverUnlock(false));
    ExecOne(server, closers, GAP_RUN, 6, s');
    assert s'.pcs[0 := Rest] == DoneOnly(closers, 1).pcs;
  }

  /** The first thing the consumer gets is event 1. */
  lemma {:induction false} GapAfterDone(server: seq<Event>, closers: nat)
    requires CompleteStream(server) && closers > 0
    ensures Exec(server, closers, GAP_RUN).Some?
    ensures Exec(server, closers, GAP_RUN).value.Sent() == [Server(1)]
  {
    GapDone(server, closers);
    Takes(server, closers, GAP_RUN, 3, 0);
    GapDrops(server, closers);
    Takes(server, closers, GAP_RUN, 7, 1);
    ExecOne(server, closers, GAP_RUN, 9, AtSelect(server, closers, 1));
    assert GAP_RUN[..10] == GAP_RUN;
  }

  /** Against a complete server stream the consumer's channel carries the first events 0..k-1 without
      a gap, in every interleaving, exactly when nobody but the callback can close the stream. */
  lemma {:induction false} GapFreeIff(server: seq<Event>, closers: nat)
    requires CompleteStream(server)
    ensures (forall run | Exec(server, closers, run).Some? ::
               exists k: nat :: IsFront(Exec(server, closers, run).value.Sent(), k, true)) <==> closers == 0
  {
    if closers > 0 {
      GapAfterDone(server, closers);
      forall k: nat ensures !IsFront([Server(1)], k, true) {
        assert k > 0 ==> Front(k)[0] == Server(0);
      }
    } else {
      forall run | Exec(server, closers, run).Some?
        ensures exists k: nat :: IsFront(Exec(server, closers, run).value.Sent(), k, true)
      {
        SoloHolds(server, run);
      }
    }
  }
}
