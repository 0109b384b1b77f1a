/** The agent loop itself (Process and its helpers in pkg/workflow/builtin/agent/loop.go), with its
    local variables, refining the step function of AgentLoop. */
module AgentProcess {
  import opened StreamProtocol
  import AE = AgentEffects
  import SS = StreamSession
  import opened Text
  import opened Wrappers
  import opened AgentLoop
  import opened Messages
  import opened AgentTurn

  /** flushThought: the line to send, if any. */
  method FlushThought(w: World, surface: bool, buffer: string) returns (sent: seq<Event>)
    ensures forall v: Shown | v.buffer == buffer :: Flushed(w, surface, v) == Shown(v.sent + sent, "")
  {
    var line := TrimSpace(buffer);
    if line == "" || !surface {
      return [];
    }
    if |line| > 300 {
      line := line[..300] + "…";
    }
    sent := [Event(Kind.Thought, w.json(TextPayload(line)))];
  }

  /** Reasoning text, line by line. */
  method Feed(w: World, surface: bool, v: Shown, text: string) returns (u: Shown)
    ensures u == Fed(w, surface, v, text)
  {
    u := v;
    for i := 0 to |text|
      invariant u == Fed(w, surface, v, text[..i])
    {
      assert text[..i + 1][..i] == text[..i];
      var buffer := u.buffer + [text[i]];
      if text[i] == '\n' {
        var sent := FlushThought(w, surface, buffer);
        u := Shown(u.sent + sent, "");
      } else {
        u := u.(buffer := buffer);
      }
    }
    assert text[..|text|] == text;
  }

  /** The loop over one response's events. quiet: a forced recall is active. */
  method CollectRound(w: World, surface: bool, quiet: bool, events: seq<LLMEvent>) returns (r: Round, sent: seq<Event>)
    ensures r == Collected(events)
    ensures sent == if quiet then [] else Streamed(w, surface, events)
  {
    r := Round([], "", [], None);
    var shown := Shown([], "");
    for i := 0 to |events|
      invariant r == Collected(events[..i]) && shown == ShownOf(w, surface, events[..i])
    {
      assert events[..i + 1][..i] == events[..i];
      match events[i] {
        case Reasoning(t) =>
          shown := Feed(w, surface, shown, t);
        case TextDelta(t) =>
          var thought := FlushThought(w, surface, shown.buffer);
          shown := Shown(shown.sent + thought + [Event(Kind.Delta, w.json(TextPayload(t)))], "");
          r := r.(blocks := AppendText(r.blocks, t));
        case Use(c) =>
          var thought := FlushThought(w, surface, shown.buffer);
          shown := Shown(shown.sent + thought + [Event(Kind.ToolCall, w.json(CallPayload(c)))], "");
          r := r.(blocks := r.blocks + [UseBlock(c)], calls := r.calls + [c]);
        case Stop(reason) => r := r.(stop := reason);
        case Fault(code) => r := r.(fault := Some(code));
        case Partial =>
      }
    }
    assert events[..|events|] == events;
    var last := FlushThought(w, surface, shown.buffer);
    sent := if quiet then [] else shown.sent + last;
  }

  /** toolErrorCounts holds each tool's failures in the log. */
  ghost predicate CountsMatch(counts: map<string, nat>, log: seq<Invocation>) {
    forall name {:trigger Failures(log, name)} :: Failures(log, name) == if name in counts then counts[name] else 0
  }

  lemma {:induction false} OneMoreCounted(counts: map<string, nat>, log: seq<Invocation>, name: string, failed: bool)
    requires CountsMatch(counts, log)
    ensures CountsMatch(if failed then counts[name := Failures(log, name) + 1] else counts, log + [Invocation(name, failed)])
  {
    assert (log + [Invocation(name, failed)])[..|log|] == log;
  }

  method InvokeTool(w: World, max: nat, counts: map<string, nat>, t: Tools, call: ToolUse)
    returns (counts': map<string, nat>, u: Tools)
    requires !t.stopped && CountsMatch(counts, t.log)
    ensures u == AfterTool(w, max, t, call)
    ensures CountsMatch(counts', u.log)
  {
    counts' := counts;
    if !w.known(call.name) {
      u := t.(results := t.results + [ResultBlock(call.id, w.json(UnknownTool(call.name)), true)]);
      return;
    }
    var failures: nat := if call.name in counts then counts[call.name] else 0;
    assert failures == Failures(t.log, call.name);
    if failures > max {
      u := Answered(w, t, call.id, w.json(CapReached(call.name, failures)), true);
      return;
    }
    var o := w.invoke(|t.log|, call);
    var payload := o.payload;
    if !o.failed && BlankPayload(payload) {
      payload := NO_OUTPUT;
    }
    if o.failed {
      counts' := counts[call.name := failures + 1];
    }
    OneMoreCounted(counts, t.log, call.name, o.failed);
    u := t.(log := t.log + [Invocation(call.name, o.failed)], sent := t.sent + Attached(w, call.id, o.attachments));
    if o.failed && w.terminates(call.name) {
      u := u.(stopped := true);
      return;
    }
    u := Answered(w, u, call.id, payload, o.failed);
  }

  /** The calls of one response in order, until one stops the turn; at says which invocations are each
      call's own. */
  method RunTools(w: World, max: nat, counts: map<string, nat>, log: seq<Invocation>, calls: seq<ToolUse>)
    returns (counts': map<string, nat>, t: Tools, ghost at: seq<nat>)
    requires CountsMatch(counts, log)
    ensures t == AfterTools(w, max, log, calls) && AE.Returned(w, max, log, calls, at, t)
    ensures CountsMatch(counts', t.log)
  {
    counts', t := counts, Tools(log, [], [], false);
    for i := 0 to |calls|
      invariant t == AfterTools(w, max, log, calls[..i]) && !t.stopped
      invariant CountsMatch(counts', t.log)
    {
      assert calls[..i + 1][..i] == calls[..i];
      counts', t := InvokeTool(w, max, counts', t, calls[i]);
      if t.stopped {
        StoppedStays(w, max, log, calls, i + 1);
        break;
      }
    }
    assert calls[..|calls|] == calls;
    at := AE.ToolsReturn(w, max, log, calls);
  }

  lemma {:induction false} StoppedStays(w: World, max: nat, log: seq<Invocation>, calls: seq<ToolUse>, k: nat)
    requires k <= |calls| && AfterTools(w, max, log, calls[..k]).stopped
    ensures AfterTools(w, max, log, calls) == AfterTools(w, max, log, calls[..k])
  {
    if k == |calls| {
      assert calls[..k] == calls;
    } else {
      assert calls[..|calls| - 1][..k] == calls[..k];
      StoppedStays(w, max, log, calls[..|calls| - 1], k);
    }
  }

  method AddRefs(charts: seq<ChartRef>, refs: seq<ChartRef>) returns (out: seq<ChartRef>)
    ensures out == WithRefs(charts, refs)
  {
    out := charts;
    for i := 0 to |refs|
      invariant out == WithRefs(charts, refs[..i])
    {
      assert refs[..i + 1][..i] == refs[..i];
      if refs[i].key !in Keys(out) {
        out := out + [refs[i]];
      }
    }
    assert refs[..|refs|] == refs;
  }

  method AddCharts(w: World, charts: seq<ChartRef>, results: seq<Block>) returns (out: seq<ChartRef>)
    ensures out == Produced(w, charts, results)
  {
    out := charts;
    for i := 0 to |results|
      invariant out == Produced(w, charts, results[..i])
    {
      assert results[..i + 1][..i] == results[..i];
      if results[i].ResultBlock? && !results[i].isError {
        out := AddRefs(out, w.refs(results[i].payload));
      }
    }
    assert results[..|results|] == results;
  }

  method MissingKeys(referenced: seq<string>, charts: seq<ChartRef>) returns (out: seq<string>)
    ensures out == Missing(referenced, charts)
  {
    out := [];
    for i := 0 to |referenced|
      invariant out == Missing(referenced[..i], charts)
    {
      assert referenced[..i + 1][..i] == referenced[..i];
      if referenced[i] !in Keys(charts) {
        out := out + [referenced[i]];
      }
    }
    assert referenced[..|referenced|] == referenced;
  }

  method PatchCharts(w: World, text: string, charts: seq<ChartRef>) returns (patched: string)
    ensures patched == Patched(w, text, charts)
  {
    patched := w.correct(text, charts);
    var present := w.keys(patched);
    var add: seq<string> := [];
    for i := 0 to |charts|
      invariant add == Dropped(charts[..i], present)
    {
      assert charts[..i + 1][..i] == charts[..i];
      if charts[i].key !in present {
        add := add + [Image(charts[i])];
      }
    }
    assert charts[..|charts|] == charts;
    if add != [] {
      BlankIff(patched);
      patched := if TrimSpace(patched) == "" then Join(PARAGRAPH, add) else patched + PARAGRAPH + Join(PARAGRAPH, add);
    }
  }

  /** The branch for a finished response, on the loop's own flags. */
  method EndOfTurn(cfg: Config, w: World, s: State, r: Round, forced: bool, active: bool, preserved: string) returns (n: Next)
    requires forced == active == s.recall.Recalling? && (active ==> preserved == s.recall.answer)
    ensures n == Conclude(cfg, w, s, r)
  {
    var blocks := r.blocks;
    var text := LastText(blocks);
    BlankIff(text);
    if !active && TrimSpace(text) == "" && s.nudges < cfg.maxEmptyAnswerRetries {
      if |blocks| == 0 {
        blocks := [TextBlock(NO_ANSWER)];
      }
      return Continue(Say(s, blocks, Says(User, NUDGE)).(nudges := s.nudges + 1));
    }
    var message := Message(Assistant, blocks);
    if active {
      text := preserved;
      message := Says(Assistant, preserved);
    }
    var missing := MissingKeys(w.keys(text), s.charts);
    if |missing| == 1 && !forced {
      return Continue(Say(s, blocks, Says(User, RECALL)).(recall := Recalling(text)));
    }
    var patched := PatchCharts(w, text, s.charts);
    if patched != text {
      message := Says(Assistant, patched);
    }
    n := End(s.sent, s.log, Completed(patched, r.stop, message));
  }

  // ---- the whole turn

  datatype Attachment = Attachment(mediaType: string, size: nat, ref: string)

  /** attachmentBlock. */
  predicate Supported(a: Attachment) {
    a.size > 0 && ("image/" <= a.mediaType || a.mediaType == "application/pdf")
  }

  /** The user's message: supported attachments first, then the text. It may follow any good history. */
  method UserMessage(attachments: seq<Attachment>, text: string) returns (m: Message)
    ensures m.role.User? && m.content != [] && m.content[|m.content| - 1] == TextBlock(text)
    ensures Uses(m.content) == [] && ResultIds(m.content) == [] && HasText(m.content)
    ensures MediaRefs(m.content) == SupportedRefs(attachments)
    ensures forall ref :: ref in MediaRefs(m.content) <==>
              exists a | a in attachments :: a.ref == ref && a.size > 0 && ("image/" <= a.mediaType || a.mediaType == "application/pdf")
  {
    SupportedRefsMean(attachments);
    var blocks: seq<Block> := [];
    for i := 0 to |attachments|
      invariant Uses(blocks) == [] && ResultIds(blocks) == [] && MediaRefs(blocks) == SupportedRefs(attachments[..i])
    {
      assert attachments[..i + 1][..i] == attachments[..i];
      if Supported(attachments[i]) {
        AddBlock(blocks, MediaBlock(attachments[i].ref));
        assert (blocks + [MediaBlock(attachments[i].ref)])[..|blocks|] == blocks;
        blocks := blocks + [MediaBlock(attachments[i].ref)];
      }
    }
    assert attachments[..|attachments|] == attachments;
    AddBlock(blocks, TextBlock(text));
    HasTextAdd(blocks, TextBlock(text));
    assert (blocks + [TextBlock(text)])[..|blocks|] == blocks;
    m := Message(User, blocks + [TextBlock(text)]);
  }

  lemma {:induction false} SupportedRefsMean(attachments: seq<Attachment>)
    ensures forall ref :: ref in SupportedRefs(attachments) <==> exists a | a in attachments :: a.ref == ref && Supported(a)
  {
    if attachments != [] {
      var head, last := attachments[..|attachments| - 1], attachments[|attachments| - 1];
      SupportedRefsMean(head);
      assert attachments == head + [last];
      forall ref ensures ref in SupportedRefs(attachments) <==> exists a | a in attachments :: a.ref == ref && Supported(a) {
        if a :| a in head && a.ref == ref && Supported(a) {
          assert a in attachments;
        }
      }
    }
  }

  function SupportedRefs(attachments: seq<Attachment>): seq<string> {
    if attachments == [] then [] else
    var a := attachments[|attachments| - 1];
    SupportedRefs(attachments[..|attachments| - 1]) + if Supported(a) then [a.ref] else []
  }

  /** The memory peer: absent, or present and accepting the turn or not. */
  datatype Memory = Absent | Present(appendFails: bool)

  /** The loop. Its tool-less guard is unreachable: a batch of calls always leaves results. */
  method Loop(cfg: Config, w: World, history: seq<Message>, user: Message) returns (sent: seq<Event>, outcome: Outcome)
    ensures var e := Turn(cfg, w, Opening(history, user));
            sent == e.sent && outcome == e.outcome
  {
    var s := Opening(history, user);
    var counts: map<string, nat> := map[];
    var forced, active, preserved := false, false, "";
    ghost var step := StepOf(cfg, w);
    for iter := 0 to cfg.maxIterations
      invariant Run(step, cfg.maxIterations, 0, Opening(history, user)) == Run(step, cfg.maxIterations, iter, s)
      invariant CountsMatch(counts, s.log)
      invariant forced == active == s.recall.Recalling? && (active ==> preserved == s.recall.answer)
    {
      var n;
      n, counts := Iterate(cfg, w, iter, s, counts, forced, active, preserved);
      if n.End? {
        return n.sent, n.outcome;
      }
      s := n.state;
      if s.recall.Recalling? && !active {
        forced, active, preserved := true, true, s.recall.answer;
      }
    }
    return s.sent, Failed(MaxIterations);
  }

  method Iterate(cfg: Config, w: World, iter: nat, s: State, counts: map<string, nat>, forced: bool, active: bool, preserved: string)
    returns (n: Next, counts': map<string, nat>)
    requires CountsMatch(counts, s.log)
    requires forced == active == s.recall.Recalling? && (active ==> preserved == s.recall.answer)
    ensures n == Step(cfg, w, iter, s)
    ensures n.Continue? ==> CountsMatch(counts', n.state.log)
    ensures n.Continue? && active ==> n.state.recall == s.recall
  {
    counts' := counts;
    if w.cancelled(iter) {
      return End(s.sent, s.log, Failed(Cancelled)), counts;
    }
    var r, shown := CollectRound(w, cfg.surfaceThoughts, active, w.llm(iter, s.msgs));
    var u := s.(sent := s.sent + shown);
    assert u == Emit(s, Streamed(w, cfg.surfaceThoughts, Events(w, iter, s)));
    if r.fault.Some? {
      return End(u.sent, u.log, Failed(r.fault.value)), counts;
    }
    if r.stop == "end_turn" || |r.calls| == 0 {
      n := EndOfTurn(cfg, w, u, r, forced, active, preserved);
      return n, counts;
    }
    var t;
    ghost var at;
    counts', t, at := RunTools(w, cfg.maxToolRetries, counts, s.log, r.calls);
    var toolSent := if active then [] else t.sent;
    if t.stopped {
      return End(u.sent + toolSent, t.log, Failed(ToolFailed)), counts';
    }
    var charts := AddCharts(w, s.charts, t.results);
    ResultsMatchCalls(w, cfg.maxToolRetries, s.log, r.calls);
    if |t.results| == 0 {
      assert false;
    }
    n := Continue(State(s.msgs + [Message(Assistant, r.blocks), Message(User, t.results)], s.nudges, t.log, charts, s.recall, u.sent + toolSent));
  }

  lemma {:induction false} ResultsMatchCalls(w: World, max: nat, log: seq<Invocation>, calls: seq<ToolUse>)
    ensures var t := AfterTools(w, max, log, calls); !t.stopped ==> |t.results| == |calls|
  {
    if calls != [] {
      ResultsMatchCalls(w, max, log, calls[..|calls| - 1]);
    }
  }

  /** Process. history is None when memory cannot be loaded; rendered says the system prompt rendered. */
  method Process(cfg: Config, w: World, history: Option<seq<Message>>, rendered: bool, user: Message, mem: Memory)
    returns (calls: seq<SS.SinkCall>, stored: Option<(Message, Message)>)
    ensures history.None? ==> calls == SinkCalls(w, [], Failed(MemoryLoad)) && stored.None?
    ensures history.Some? && !rendered ==> calls == SinkCalls(w, [], Failed(RenderFailed)) && stored.None?
    ensures history.Some? && rendered ==>
              var e := Turn(cfg, w, Opening(history.value, user));
              && calls == SinkCalls(w, e.sent, if e.outcome.Completed? && mem == Present(true) then Failed(MemoryAppend) else e.outcome)
              && stored == if e.outcome.Completed? && mem == Present(false)
                           then Some((Message(User, ForMemory(user.content)), Message(Assistant, TextOnly(e.outcome.message.content))))
                           else None
  {
    stored := None;
    if history.None? {
      return [SS.Closed(Closing(w, Failed(MemoryLoad)))], None;
    }
    if !rendered {
      return [SS.Closed(Closing(w, Failed(RenderFailed)))], None;
    }
    var sent, outcome := Loop(cfg, w, history.value, user);
    calls := seq(|sent|, i requires 0 <= i < |sent| => SS.Sent(sent[i]));
    if outcome.Completed? && mem.Present? {
      if mem.appendFails {
        calls := calls + [SS.Closed(Closing(w, Failed(MemoryAppend)))];
        return;
      }
      stored := Some((Message(User, ForMemory(user.content)), Message(Assistant, TextOnly(outcome.message.content))));
    }
    calls := calls + [SS.Closed(Closing(w, outcome))];
  }
}
