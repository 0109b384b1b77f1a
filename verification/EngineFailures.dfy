/** Replies that are not stream events (pkg/rsassistant/stream.go): each ends the stream with an error of
    its own, after everything handed over before it. */
module EngineFailures {
  import opened StreamProtocol
  import opened Wrappers
  import opened EngineProgress
  import opened EngineSafety
  import opened EngineStream

  /** The reply says that nobody is listening, or that the service failed. */
  predicate Fails(m: Msg) { m.NoResponders? || m.ServiceError? }

  function CodeOf(m: Msg): string
    requires Fails(m)
  {
    if m.NoResponders? then "no_responders" else "status_" + m.status
  }

  /** Thread 0 holds this last item, and nothing has been handed over since. */
  predicate Holds(s: State, item: Item, before: seq<Item>) {
    |s.pcs| > 0 && s.pcs[0].Pending() && s.pcs[0].item == item && s.pcs[0].last && s.Sent() == before
  }

  /** The channel has carried exactly these items, and thread 0 is on its way to close it, or it is
      closed. */
  predicate Final(s: State, items: seq<Item>) {
    && |s.pcs| > 0 && s.Sent() == items
    && (s.closed || (s.pcs[0].DeliverUnlock? && s.pcs[0].last) || s.pcs[0].OnceEnter? || s.pcs[0].InOnce() || s.pcs[0].CloseLock?)
  }

  lemma {:induction false} FinalStays(server: seq<Event>, s: State, step: Step, items: seq<Item>)
    requires Inv(server, s) && Enabled(server, s, step) && Final(s, items)
    ensures Final(Apply(server, s, step), items)
  {
    var s' := Apply(server, s, step);
    assert Thread(s, 0);
    assert !step.Send?;
    assert s'.Sent() == s.Sent();
  }

  lemma {:induction false} HeldOrSent(server: seq<Event>, s: State, step: Step, item: Item, before: seq<Item>)
    requires Inv(server, s) && Enabled(server, s, step) && Holds(s, item, before)
    requires !s.doneClosed
    ensures var s' := Apply(server, s, step);
            if step.Send? then Final(s', before + [item]) else Holds(s', item, before)
  {
    var s' := Apply(server, s, step);
    assert Thread(s, 0);
    if step.Send? {
      assert s'.Sent() == s.Sent() + [item];
    } else {
      assert s'.Sent() == s.Sent();
    }
  }

  lemma {:induction false} ExecLast(server: seq<Event>, closers: nat, run: seq<Step>, tail: seq<Step>)
    requires tail != [] && Exec(server, closers, run + tail).Some?
    ensures var head, step := run + tail[..|tail| - 1], tail[|tail| - 1];
            && Exec(server, closers, head).Some? && Enabled(server, Exec(server, closers, head).value, step)
            && Exec(server, closers, run + tail) == Some(Apply(server, Exec(server, closers, head).value, step))
  {
    assert (run + tail)[..|run + tail| - 1] == run + tail[..|tail| - 1];
  }

  lemma {:induction false} ExecSplit(server: seq<Event>, closers: nat, head: seq<Step>, step: Step, tail: seq<Step>)
    requires Exec(server, closers, head + [step] + tail).Some?
    ensures Exec(server, closers, head).Some? && Enabled(server, Exec(server, closers, head).value, step)
    ensures Exec(server, closers, head + [step]) == Some(Apply(server, Exec(server, closers, head).value, step))
  {
    var run := head + [step] + tail;
    if tail == [] {
      assert run == head + [step] && run[..|run| - 1] == head;
    } else {
      assert run[..|run| - 1] == head + [step] + tail[..|tail| - 1];
      ExecSplit(server, closers, head, step, tail[..|tail| - 1]);
    }
  }

  /** done never opens again. */
  lemma {:induction false} DoneStays(server: seq<Event>, s: State, step: Step)
    requires |s.pcs| > 0 && Enabled(server, s, step)
    ensures s.doneClosed ==> Apply(server, s, step).doneClosed
  {
  }

  lemma {:induction false} OpenBefore(server: seq<Event>, closers: nat, run: seq<Step>, tail: seq<Step>)
    requires Exec(server, closers, run + tail).Some?
    ensures Exec(server, closers, run).Some?
    ensures !Exec(server, closers, run + tail).value.doneClosed ==> !Exec(server, closers, run).value.doneClosed
  {
    if tail == [] {
      assert run + tail == run;
    } else {
      var head := run + tail[..|tail| - 1];
      ExecLast(server, closers, run, tail);
      OpenBefore(server, closers, run, tail[..|tail| - 1]);
      DoneStays(server, Exec(server, closers, head).value, tail[|tail| - 1]);
    }
  }

  lemma {:induction false} FinalKept(server: seq<Event>, closers: nat, run: seq<Step>, tail: seq<Step>, items: seq<Item>)
    requires Exec(server, closers, run).Some? && Final(Exec(server, closers, run).value, items)
    requires Exec(server, closers, run + tail).Some?
    ensures Final(Exec(server, closers, run + tail).value, items)
  {
    if tail == [] {
      assert run + tail == run;
    } else {
      var head := run + tail[..|tail| - 1];
      ExecLast(server, closers, run, tail);
      FinalKept(server, closers, run, tail[..|tail| - 1], items);
      InvHolds(server, closers, head);
      FinalStays(server, Exec(server, closers, head).value, tail[|tail| - 1], items);
    }
  }

  /** From the arrival of a failing reply on, thread 0 holds the error until it sends it. */
  lemma {:induction false} FailureHeld(server: seq<Event>, closers: nat, head: seq<Step>, m: Msg)
    requires Fails(m) && Exec(server, closers, head + [Arrive(m)]).Some?
    ensures Exec(server, closers, head).Some?
    ensures var s := Exec(server, closers, head).value;
            && Holds(Exec(server, closers, head + [Arrive(m)]).value, Synthetic(CodeOf(m)), s.Sent())
            && (!s.doneClosed ==> s.Sent() == Front(s.nextSeq))
            && (Exec(server, closers, head + [Arrive(m)]).value.doneClosed <==> s.doneClosed)
  {
    assert head + [Arrive(m)] + [] == head + [Arrive(m)];
    ExecSplit(server, closers, head, Arrive(m), []);
    InvHolds(server, closers, head);
  }

  lemma {:induction false} HeldUntilSent(server: seq<Event>, closers: nat, run: seq<Step>, mid: seq<Step>, item: Item, before: seq<Item>)
    requires Exec(server, closers, run).Some? && Holds(Exec(server, closers, run).value, item, before)
    requires Exec(server, closers, run + mid).Some? && !Exec(server, closers, run + mid).value.doneClosed
    requires Send !in mid
    ensures Holds(Exec(server, closers, run + mid).value, item, before)
  {
    if mid == [] {
      assert run + mid == run;
    } else {
      var head, step := run + mid[..|mid| - 1], mid[|mid| - 1];
      ExecLast(server, closers, run, mid);
      DoneStays(server, Exec(server, closers, head).value, step);
      HeldUntilSent(server, closers, run, mid[..|mid| - 1], item, before);
      InvHolds(server, closers, head);
      assert step in mid;
      HeldOrSent(server, Exec(server, closers, head).value, step, item, before);
    }
  }

  /** Nothing more can happen: no begun thread can move and the consumer has read everything. */
  ghost predicate Quiet(server: seq<Event>, s: State)
    requires |s.pcs| > 0
  {
    forall step: Step | step.Internal() || step.Receive? :: !Enabled(server, s, step)
  }

  lemma {:induction false} FinalCompletes(server: seq<Event>, closers: nat, run: seq<Step>, items: seq<Item>)
    requires Exec(server, closers, run).Some? && Final(Exec(server, closers, run).value, items)
    requires Quiet(server, Exec(server, closers, run).value)
    ensures Exec(server, closers, run).value.eventsClosed && Exec(server, closers, run).value.received == items
  {
    InvHolds(server, closers, run);
    var s := Exec(server, closers, run).value;
    assert !Enabled(server, s, Receive);
    assert s.Sent() == s.received;
    if !s.pcs[0].Rest? {
      SomeThreadMoves(server, s, 0);
    }
    CloseCompletes(server, closers, run);
  }

  /** Whoever else closes: if done is still open when the error is handed over, then once nothing can
      happen any more the stream is closed and the consumer has read the server's events so far and then
      the error, and nothing else. */
  lemma {:induction false} FailureSentEndsStream(server: seq<Event>, closers: nat, head: seq<Step>, m: Msg, mid: seq<Step>, tail: seq<Step>)
    requires Fails(m)
    requires Exec(server, closers, head + [Arrive(m)] + mid + [Send] + tail).Some?
    requires Send !in mid && Exec(server, closers, head + [Arrive(m)] + mid).Some?
    requires !Exec(server, closers, head + [Arrive(m)] + mid).value.doneClosed
    requires Quiet(server, Exec(server, closers, head + [Arrive(m)] + mid + [Send] + tail).value)
    ensures Exec(server, closers, head).Some?
    ensures var end := Exec(server, closers, head + [Arrive(m)] + mid + [Send] + tail).value;
            && end.eventsClosed
            && end.received == Front(Exec(server, closers, head).value.nextSeq) + [Synthetic(CodeOf(m))]
  {
    var arrived := head + [Arrive(m)];
    OpenBefore(server, closers, arrived, mid);
    FailureHeld(server, closers, head, m);
    var before := Exec(server, closers, head).value.Sent();
    HeldUntilSent(server, closers, arrived, mid, Synthetic(CodeOf(m)), before);
    ExecSplit(server, closers, arrived + mid, Send, tail);
    InvHolds(server, closers, arrived + mid);
    HeldOrSent(server, Exec(server, closers, arrived + mid).value, Send, Synthetic(CodeOf(m)), before);
    FinalKept(server, closers, arrived + mid + [Send], tail, before + [Synthetic(CodeOf(m))]);
    FinalCompletes(server, closers, arrived + mid + [Send] + tail, before + [Synthetic(CodeOf(m))]);
  }

  // ---- with no other closer the error is always handed over

  lemma {:induction false} AloneHolds(server: seq<Event>, run: seq<Step>, tail: seq<Step>, item: Item, before: seq<Item>)
    requires Exec(server, 0, run).Some? && Exec(server, 0, run + tail).Some?
    requires Holds(Exec(server, 0, run).value, item, before) && !Exec(server, 0, run).value.doneClosed
    ensures var s := Exec(server, 0, run + tail).value;
            (!s.doneClosed && Holds(s, item, before)) || Final(s, before + [item])
  {
    if tail == [] {
      assert run + tail == run;
    } else {
      var head, step := run + tail[..|tail| - 1], tail[|tail| - 1];
      ExecLast(server, 0, run, tail);
      AloneHolds(server, run, tail[..|tail| - 1], item, before);
      InvHolds(server, 0, head);
      var s := Exec(server, 0, head).value;
      if Final(s, before + [item]) {
        FinalStays(server, s, step, before + [item]);
      } else {
        HeldOrSent(server, s, step, item, before);
      }
    }
  }

  lemma {:induction false} QuietHoldsNothing(server: seq<Event>, s: State, item: Item, before: seq<Item>)
    requires |s.pcs| > 0 && Inv(server, s) && Quiet(server, s)
    ensures !Holds(s, item, before)
  {
    assert !Enabled(server, s, Receive);
    if !s.pcs[0].Rest? {
      SomeThreadMoves(server, s, 0);
    }
  }

  lemma {:induction false} AloneCompletes(server: seq<Event>, run: seq<Step>, tail: seq<Step>, item: Item, before: seq<Item>)
    requires Exec(server, 0, run).Some? && Exec(server, 0, run + tail).Some?
    requires Holds(Exec(server, 0, run).value, item, before) && !Exec(server, 0, run).value.doneClosed
    requires Quiet(server, Exec(server, 0, run + tail).value)
    ensures var end := Exec(server, 0, run + tail).value;
            end.eventsClosed && end.received == before + [item]
  {
    AloneHolds(server, run, tail, item, before);
    InvHolds(server, 0, run + tail);
    var end := Exec(server, 0, run + tail).value;
    QuietHoldsNothing(server, end, item, before);
    FinalCompletes(server, 0, run + tail, before + [item]);
  }

  /** The rejected request fails fast: with no other closer, a failing reply taken while the stream is open
      always ends in the closed stream with the error last. */
  lemma {:induction false} FailureEndsStream(server: seq<Event>, head: seq<Step>, m: Msg, tail: seq<Step>)
    requires Fails(m) && Exec(server, 0, head + [Arrive(m)] + tail).Some?
    requires Exec(server, 0, head).Some? && !Exec(server, 0, head).value.doneClosed
    requires Quiet(server, Exec(server, 0, head + [Arrive(m)] + tail).value)
    ensures var end := Exec(server, 0, head + [Arrive(m)] + tail).value;
            && end.eventsClosed
            && end.received == Front(Exec(server, 0, head).value.nextSeq) + [Synthetic(CodeOf(m))]
  {
    var arrived := head + [Arrive(m)];
    ExecSplit(server, 0, head, Arrive(m), tail);
    FailureHeld(server, 0, head, m);
    AloneCompletes(server, arrived, tail, Synthetic(CodeOf(m)), Front(Exec(server, 0, head).value.nextSeq));
  }
}
