/** Safety of the bridge's stream client (pkg/rsassistant/stream.go), in every interleaving. */
module EngineSafety {
  import opened StreamProtocol
  import opened Wrappers
  import opened EngineStream

  /** Thread t's place agrees with mu, with doneOnce, and with the closed flag. */
  ghost predicate Thread(s: State, t: nat)
    requires t < |s.pcs|
  {
    var pc := s.pcs[t];
    && (pc.HoldsMu() <==> s.mu == Some(t))
    && (pc.InOnce() <==> s.once == Running(t))
    && (pc.PastOnce() ==> s.once.Done?)
    && (pc.Delivering() ==> t == 0)
    && (pc.CloseEvents? ==> s.closed && !s.eventsClosed)
    && (pc.DeliverSelect? ==> !s.closed)
  }

  /** mu is held by the one thread inside a critical section; doneOnce runs in at most one thread
      and closes done; close() closes the channel under mu, once. */
  ghost predicate Locks(s: State) {
    && |s.pcs| > 0 && !s.panicked && |s.buffer| <= CAPACITY
    && (forall t | 0 <= t < |s.pcs| :: Thread(s, t))
    && (s.mu.Some? ==> s.mu.value < |s.pcs|)
    && (s.once.Running? ==> s.once.t < |s.pcs|)
    && (s.doneClosed <==> s.once.Done? || (s.once.Running? && s.pcs[s.once.t].OnceExit?))
    && (s.closed ==> s.once.Done?)
    && (s.eventsClosed ==> s.closed)
    && (s.closed && !s.eventsClosed ==> s.mu.Some? && s.pcs[s.mu.value].CloseEvents?)
  }

  /** After doneOnce has run, close() is still on its way until the stream is closed. */
  ghost predicate Closing(s: State) {
    s.once.Done? && !s.closed ==> exists t :: 0 <= t < |s.pcs| && s.pcs[t].CloseLock?
  }

  function Front(k: nat): seq<Item> { seq(k, i requires 0 <= i < k => Server(i)) }

  /** Numbers below this have left thread 0. */
  function Bound(s: State): nat
    requires |s.pcs| > 0
  {
    if s.pcs[0].Pending() && s.pcs[0].item.Server? then s.pcs[0].item.n else s.nextSeq
  }

  ghost predicate Increasing(items: seq<Item>, bound: nat) {
    && (forall i | 0 <= i < |items| && items[i].Server? :: items[i].n < bound)
    && forall i, j | 0 <= i < j < |items| && items[i].Server? && items[j].Server? :: items[i].n < items[j].n
  }

  /** The server's events 0..k-1, in order, possibly with one made-up error after them. */
  ghost predicate IsFront(items: seq<Item>, k: nat, mayEnd: bool) {
    || items == Front(k)
    || (mayEnd && |items| == k + 1 && items[..k] == Front(k) && items[k].Synthetic?)
  }

  /** What has been handed over, and in what order. */
  ghost predicate Order(server: seq<Event>, s: State) {
    && |s.pcs| > 0
    && s.nextSeq <= |server|
    && (s.pcs[0].Pending() && s.pcs[0].item.Server? ==>
          s.pcs[0].item.n + 1 == s.nextSeq && s.pcs[0].last == server[s.pcs[0].item.n].Terminates())
    && (s.pcs[0].Pending() && s.pcs[0].item.Synthetic? ==> s.pcs[0].last)
    && Increasing(s.Sent(), Bound(s))
    && (!s.doneClosed ==>
          IsFront(s.Sent(), Bound(s), s.pcs[0].OnceEnter? || s.pcs[0].OnceBody? || (s.pcs[0].DeliverUnlock? && s.pcs[0].last)))
  }

  ghost predicate Inv(server: seq<Event>, s: State) {
    Locks(s) && Closing(s) && Order(server, s)
  }

  lemma {:induction false} LocksStepMutex(server: seq<Event>, s: State, step: Step)
    requires Locks(s) && Enabled(server, s, step)
    requires step.Acquire? || step.Release? || step.CloseChannel?
    ensures Locks(Apply(server, s, step))
  {
    var s' := Apply(server, s, step);
    assert Thread(s, step.t);
    forall t | 0 <= t < |s.pcs| ensures Thread(s', t) {
      assert Thread(s, t);
    }
  }

  lemma {:induction false} LocksStepOnce(server: seq<Event>, s: State, step: Step)
    requires Locks(s) && Enabled(server, s, step)
    requires step.EnterOnce? || step.RunOnce? || step.ExitOnce?
    ensures Locks(Apply(server, s, step))
  {
    var s' := Apply(server, s, step);
    assert Thread(s, step.t);
    forall t | 0 <= t < |s.pcs| ensures Thread(s', t) {
      assert Thread(s, t);
    }
  }

  lemma {:induction false} LocksStepOther(server: seq<Event>, s: State, step: Step)
    requires Locks(s) && Enabled(server, s, step)
    requires step.Arrive? || step.Begin? || step.Send? || step.Drop? || step.Receive?
    ensures Locks(Apply(server, s, step))
  {
    var s' := Apply(server, s, step);
    assert Thread(s, 0);
    forall t | 0 <= t < |s.pcs| ensures Thread(s', t) {
      assert Thread(s, t);
    }
  }

  lemma {:induction false} ClosingStep(server: seq<Event>, s: State, step: Step)
    requires Locks(s) && Closing(s) && Enabled(server, s, step)
    ensures Closing(Apply(server, s, step))
  {
    var s' := Apply(server, s, step);
    if s'.once.Done? && !s'.closed {
      if step.ExitOnce? {
        assert s'.pcs[step.t].CloseLock?;
      } else {
        var t :| 0 <= t < |s.pcs| && s.pcs[t].CloseLock?;
        assert s'.pcs[t].CloseLock?;
      }
    }
  }

  lemma {:induction false} OrderStepSend(server: seq<Event>, s: State)
    requires Inv(server, s) && Enabled(server, s, Send)
    ensures Order(server, Apply(server, s, Send))
  {
    var s' := Apply(server, s, Send);
    assert Thread(s, 0);
    assert s'.Sent() == s.Sent() + [s.pcs[0].item];
    assert Bound(s') == s.nextSeq;
    if !s.doneClosed {
      assert s.Sent() == Front(Bound(s));
      if s.pcs[0].item.Server? {
        assert s'.Sent() == Front(s.nextSeq);
      }
    }
  }

  lemma {:induction false} OrderStepArrive(server: seq<Event>, s: State, m: Msg)
    requires Inv(server, s) && Enabled(server, s, Arrive(m))
    ensures Order(server, Apply(server, s, Arrive(m)))
  {
    assert Apply(server, s, Arrive(m)).Sent() == s.Sent();
  }

  lemma {:induction false} OrderStepOther(server: seq<Event>, s: State, step: Step)
    requires Inv(server, s) && Enabled(server, s, step) && !step.Send? && !step.Arrive?
    ensures Order(server, Apply(server, s, step))
  {
    var s' := Apply(server, s, step);
    assert s'.Sent() == s.Sent();
    assert Thread(s, 0);
    if step.Receive? || step.Actor() != 0 {
      assert s'.pcs[0] == s.pcs[0] && Bound(s') == Bound(s);
    } else if s.doneClosed {
      assert Bound(s) <= Bound(s');
    }
  }

  lemma {:induction false} InvHolds(server: seq<Event>, closers: nat, run: seq<Step>)
    requires Exec(server, closers, run).Some?
    ensures Inv(server, Exec(server, closers, run).value)
  {
    if run == [] {
      assert Init(closers).Sent() == Front(0);
    } else {
      var head, step := run[..|run| - 1], run[|run| - 1];
      InvHolds(server, closers, head);
      var s := Exec(server, closers, head).value;
      if step.Acquire? || step.Release? || step.CloseChannel? {
        LocksStepMutex(server, s, step);
      } else if step.EnterOnce? || step.RunOnce? || step.ExitOnce? {
        LocksStepOnce(server, s, step);
      } else {
        LocksStepOther(server, s, step);
      }
      ClosingStep(server, s, step);
      if step.Send? {
        OrderStepSend(server, s);
      } else if step.Arrive? {
        OrderStepArrive(server, s, step.m);
      } else {
        OrderStepOther(server, s, step);
      }
    }
  }

  // ---- safety, in every interleaving

  /** Nothing is sent on the closed events channel, and neither channel is closed twice. */
  lemma {:induction false} NeverPanics(server: seq<Event>, closers: nat, run: seq<Step>)
    requires Exec(server, closers, run).Some?
    ensures !Exec(server, closers, run).value.panicked
  {
    InvHolds(server, closers, run);
  }

  /** The numbers handed over always increase; and as long as done is open they are 0..k-1, so the
      consumer's channel has carried the server's first k events, once each, and at most one
      made-up error after them. */
  lemma {:induction false} HandsOverInOrder(server: seq<Event>, closers: nat, run: seq<Step>)
    requires Exec(server, closers, run).Some?
    ensures var s := Exec(server, closers, run).value;
            && Increasing(s.Sent(), |server|)
            && (!s.doneClosed ==> exists k | 0 <= k <= |server| :: IsFront(s.Sent(), k, true))
  {
    InvHolds(server, closers, run);
    var s := Exec(server, closers, run).value;
    assert IsFront(s.Sent(), Bound(s), true) <== !s.doneClosed;
  }
}
