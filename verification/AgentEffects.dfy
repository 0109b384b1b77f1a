/** What a turn does, told by the provider's events and the tools' own answers
    (pkg/workflow/builtin/agent/loop.go). */
module AgentEffects {
  import opened StreamProtocol
  import opened Text
  import opened Wrappers
  import opened AgentLoop
  import opened AgentTurn
  import opened Messages

  // ---- the parts of a response

  function CallsOf(events: seq<LLMEvent>): seq<ToolUse> {
    if events == [] then [] else
    var e := events[|events| - 1];
    CallsOf(events[..|events| - 1]) + if e.Use? then [e.call] else []
  }

  /** The last stop reason given, or "". */
  function StopOf(events: seq<LLMEvent>): string {
    if events == [] then "" else
    var e := events[|events| - 1];
    if e.Stop? then e.reason else StopOf(events[..|events| - 1])
  }

  /** The last error, if any. */
  function FaultOf(events: seq<LLMEvent>): Option<FailCode> {
    if events == [] then None else
    var e := events[|events| - 1];
    if e.Fault? then Some(e.code) else FaultOf(events[..|events| - 1])
  }

  /** A response is collected without losing a call, the stop reason, or an error. */
  lemma {:induction false} CollectedHas(events: seq<LLMEvent>)
    ensures var r := Collected(events);
            r.calls == CallsOf(events) && r.stop == StopOf(events) && r.fault == FaultOf(events)
  {
    if events != [] {
      CollectedHas(events[..|events| - 1]);
    }
  }

  // ---- surfaced thoughts

  /** The reasoning as one text, with a line break wherever text or a tool call comes between. */
  function Reasoned(events: seq<LLMEvent>): string {
    if events == [] then "" else
    var e := events[|events| - 1];
    Reasoned(events[..|events| - 1]) + if e.Reasoning? then e.text else if e.TextDelta? || e.Use? then "\n" else ""
  }

  datatype Lines = Lines(full: seq<string>, rest: string)

  /** A text cut at its line breaks. */
  function Cut(text: string): Lines {
    if text == "" then Lines([], "") else
    var l, c := Cut(text[..|text| - 1]), text[|text| - 1];
    if c == '\n' then Lines(l.full + [l.rest], "") else l.(rest := l.rest + [c])
  }

  /** The thoughts a client is shown for these lines: those that are not blank, trimmed and cut short. */
  function Told(w: World, lines: seq<string>): seq<Event> {
    if lines == [] then [] else
    var line := TrimSpace(lines[|lines| - 1]);
    Told(w, lines[..|lines| - 1]) +
    if line == "" then []
    else [Event(Kind.Thought, w.json(TextPayload(if |line| > 300 then line[..300] + "…" else line)))]
  }

  function Only(kind: Kind, events: seq<Event>): seq<Event> {
    if events == [] then [] else
    var e := events[|events| - 1];
    Only(kind, events[..|events| - 1]) + if e.kind == kind then [e] else []
  }

  lemma {:induction false} OnlyAdd(kind: Kind, events: seq<Event>, more: seq<Event>)
    ensures Only(kind, events + more) == Only(kind, events) + Only(kind, more)
  {
    if more == [] {
      assert events + more == events;
    } else {
      assert (events + more)[..|events + more| - 1] == events + more[..|more| - 1];
      OnlyAdd(kind, events, more[..|more| - 1]);
    }
  }

  lemma {:induction false} OnlyOne(kind: Kind, e: Event)
    ensures Only(kind, [e]) == if e.kind == kind then [e] else []
  {
    assert [e][..0] == [];
  }

  lemma {:induction false} ToldOne(w: World, lines: seq<string>, line: string)
    ensures Told(w, lines + [line]) == Told(w, lines) + Told(w, [line])
  {
    assert (lines + [line])[..|lines|] == lines;
    assert [line][..0] == [];
  }

  /** What has been shown are the thoughts of the finished lines; the buffer is the line begun. */
  predicate Follows(w: World, v: Shown, text: string) {
    Only(Kind.Thought, v.sent) == Told(w, Cut(text).full) && v.buffer == Cut(text).rest
  }

  lemma {:induction false} CutAdds(text: string, c: char)
    ensures Cut(text + [c]) == if c == '\n' then Lines(Cut(text).full + [Cut(text).rest], "") else Lines(Cut(text).full, Cut(text).rest + [c])
  {
    assert (text + [c])[..|text|] == text;
  }

  /** TrimSpace ignores the line break that ends a line. */
  lemma {:induction false} TrimBreak(s: string)
    ensures TrimSpace(s + "\n") == TrimSpace(s)
  {
    var t := s + "\n";
    if s == "" {
      assert t[1..] == "";
    } else if IsSpace(s[0]) {
      TrimBreak(s[1..]);
      assert t[1..] == s[1..] + "\n";
    } else {
      assert t[..|t| - 1] == s;
    }
  }

  lemma {:induction false} FlushFollows(w: World, v: Shown, text: string)
    requires Only(Kind.Thought, v.sent) == Told(w, Cut(text).full) && TrimSpace(v.buffer) == TrimSpace(Cut(text).rest)
    ensures Follows(w, Flushed(w, true, v), text + "\n")
  {
    CutAdds(text, '\n');
    var rest := Cut(text).rest;
    ToldOne(w, Cut(text).full, rest);
    assert [rest][..0] == [];
    var line := TrimSpace(rest);
    if line != "" {
      var e := Event(Kind.Thought, w.json(TextPayload(AgentLoop.Thought(line))));
      OnlyOne(Kind.Thought, e);
      OnlyAdd(Kind.Thought, v.sent, [e]);
    }
  }

  lemma {:induction false} FedFollows(w: World, v: Shown, before: string, text: string)
    requires Follows(w, v, before)
    ensures Follows(w, Fed(w, true, v, text), before + text)
  {
    if text == "" {
      assert before + text == before;
    } else {
      var head, c := text[..|text| - 1], text[|text| - 1];
      FedFollows(w, v, before, head);
      var u := Fed(w, true, v, head);
      assert before + text == (before + head) + [c];
      if c == '\n' {
        TrimBreak(u.buffer);
        FlushFollows(w, u.(buffer := u.buffer + [c]), before + head);
      } else {
        CutAdds(before + head, c);
      }
    }
  }

  lemma {:induction false} ShownFollows(w: World, events: seq<LLMEvent>)
    ensures Follows(w, ShownOf(w, true, events), Reasoned(events))
  {
    if events != [] {
      var head, e := events[..|events| - 1], events[|events| - 1];
      ShownFollows(w, head);
      var v := ShownOf(w, true, head);
      if e.Reasoning? {
        FedFollows(w, v, Reasoned(head), e.text);
      } else if e.TextDelta? || e.Use? {
        FlushFollows(w, v, Reasoned(head));
        var u := Flushed(w, true, v);
        var shown := if e.TextDelta? then Event(Kind.Delta, w.json(TextPayload(e.text)))
                     else Event(Kind.ToolCall, w.json(CallPayload(e.call)));
        OnlyOne(Kind.Thought, shown);
        OnlyAdd(Kind.Thought, u.sent, [shown]);
      } else {
        assert Reasoned(head) + "" == Reasoned(head);
      }
    }
  }

  /** With surfaced thoughts the client is shown every line of reasoning that is not blank, in order. */
  lemma {:induction false} ThoughtsMean(w: World, events: seq<LLMEvent>)
    ensures var lines := Cut(Reasoned(events));
            Only(Kind.Thought, Streamed(w, true, events)) == Told(w, lines.full + [lines.rest])
  {
    ShownFollows(w, events);
    FlushFollows(w, ShownOf(w, true, events), Reasoned(events));
    CutAdds(Reasoned(events), '\n');
  }

  // ---- what the tools answered

  /** Call i was not invoked, for its tool is unknown or failed too often; or it was invocation number j
      of the turn, and its result is what that invocation answered. Invocations j..next are its own. */
  predicate Answers(w: World, max: nat, log: seq<Invocation>, j: nat, next: nat, call: ToolUse, result: Block) {
    && j <= next <= |log|
    && if !w.known(call.name) then next == j && result == ResultBlock(call.id, w.json(UnknownTool(call.name)), true)
       else if Failures(log[..j], call.name) > max then
         next == j && result == ResultBlock(call.id, w.json(CapReached(call.name, Failures(log[..j], call.name))), true)
       else
         var o := w.invoke(j, call);
         && next == j + 1 && log[j] == Invocation(call.name, o.failed) && !(o.failed && w.terminates(call.name))
         && result == ResultBlock(call.id, if !o.failed && TrimSpace(o.payload) in {"", "\"\"", "null"} then NO_OUTPUT else o.payload, o.failed)
  }

  /** What the client is sent for it: the invocation's attachments, then the result, but nothing for an
      unknown tool. */
  function ToldOf(w: World, j: nat, next: nat, call: ToolUse, result: Block): seq<Event> {
    (if next > j then
       var files := w.invoke(j, call).attachments;
       seq(|files|, i requires 0 <= i < |files| => Event(Kind.Attachment, w.json(AttachmentPayload(call.id, files[i]))))
     else [])
    + if w.known(call.name) && result.ResultBlock?
      then [Event(Kind.ToolResult, w.json(ResultPayload(result.id, result.payload, result.isError)))] else []
  }

  function ToldOfAll(w: World, at: seq<nat>, calls: seq<ToolUse>, results: seq<Block>): seq<Event>
    requires |at| == |results| + 1 && |results| <= |calls|
  {
    if results == [] then [] else
    var n := |results| - 1;
    ToldOfAll(w, at[..n + 1], calls, results[..n]) + ToldOf(w, at[n], at[n + 1], calls[n], results[n])
  }

  /** at[i] is the number of invocations in the turn before call i. */
  predicate AllAnswered(w: World, max: nat, log: seq<Invocation>, at: seq<nat>, calls: seq<ToolUse>, results: seq<Block>) {
    && |at| == |results| + 1 && |results| <= |calls|
    && forall i | 0 <= i < |results| :: Answers(w, max, log, at[i], at[i + 1], calls[i], results[i])
  }

  /** The batch stopped at the call after the results: its invocation failed and its tool terminates. */
  predicate StoppedBy(w: World, max: nat, log: seq<Invocation>, j: nat, call: ToolUse) {
    && w.known(call.name) && j < |log| && Failures(log[..j], call.name) <= max
    && w.invoke(j, call).failed && w.terminates(call.name) && log == log[..j] + [Invocation(call.name, true)]
  }

  lemma {:induction false} AnswersGrow(w: World, max: nat, log: seq<Invocation>, more: seq<Invocation>, at: seq<nat>, calls: seq<ToolUse>, call: ToolUse, results: seq<Block>)
    requires AllAnswered(w, max, log, at, calls, results) && log <= more
    ensures AllAnswered(w, max, more, at, calls + [call], results)
    ensures ToldOfAll(w, at, calls + [call], results) == ToldOfAll(w, at, calls, results)
  {
    forall i | 0 <= i < |results| ensures Answers(w, max, more, at[i], at[i + 1], (calls + [call])[i], results[i]) {
      assert Answers(w, max, log, at[i], at[i + 1], calls[i], results[i]);
      assert more[..at[i]] == log[..at[i]];
    }
    ToldIgnoresRest(w, at, calls, call, results);
  }

  lemma {:induction false} ToldIgnoresRest(w: World, at: seq<nat>, calls: seq<ToolUse>, call: ToolUse, results: seq<Block>)
    requires |at| == |results| + 1 && |results| <= |calls|
    ensures ToldOfAll(w, at, calls + [call], results) == ToldOfAll(w, at, calls, results)
  {
    if results != [] {
      var n := |results| - 1;
      ToldIgnoresRest(w, at[..n + 1], calls, call, results[..n]);
    }
  }

  lemma {:induction false} ToldMore(w: World, at: seq<nat>, calls: seq<ToolUse>, results: seq<Block>, next: nat, result: Block)
    requires |at| == |results| + 1 && |results| < |calls|
    ensures ToldOfAll(w, at + [next], calls, results + [result]) ==
            ToldOfAll(w, at, calls, results) + ToldOf(w, at[|results|], next, calls[|results|], result)
  {
    var n := |results|;
    assert (at + [next])[..n + 1] == at && (results + [result])[..n] == results;
  }

  /** One more result. */
  lemma {:induction false} OneMoreAnswer(w: World, max: nat, log: seq<Invocation>, at: seq<nat>, calls: seq<ToolUse>, results: seq<Block>, next: nat, result: Block)
    requires |results| < |calls| && AllAnswered(w, max, log, at, calls, results)
    requires Answers(w, max, log, at[|results|], next, calls[|results|], result)
    ensures AllAnswered(w, max, log, at + [next], calls, results + [result])
  {
    var more, all := at + [next], results + [result];
    forall i | 0 <= i < |all| ensures Answers(w, max, log, more[i], more[i + 1], calls[i], all[i]) {
      if i < |results| {
        assert Answers(w, max, log, at[i], at[i + 1], calls[i], results[i]);
      }
    }
  }

  /** What one call makes of a batch that has not stopped. */
  lemma {:induction false} ToolReturns(w: World, max: nat, t: Tools, call: ToolUse)
    requires !t.stopped
    ensures var u, j := AfterTool(w, max, t, call), |t.log|;
            && t.log <= u.log
            && if u.stopped
               then StoppedBy(w, max, u.log, j, call) && u.results == t.results
                    && var files := w.invoke(j, call).attachments;
                       u.sent == t.sent + seq(|files|, i requires 0 <= i < |files| => Event(Kind.Attachment, w.json(AttachmentPayload(call.id, files[i]))))
               else |u.results| == |t.results| + 1 && u.results[..|t.results|] == t.results
                    && Answers(w, max, u.log, j, |u.log|, call, u.results[|t.results|])
                    && u.sent == t.sent + ToldOf(w, j, |u.log|, call, u.results[|t.results|])
  {
    var u := AfterTool(w, max, t, call);
    assert u.log[..|t.log|] == t.log;
  }

  /** The attachments of invocation j. */
  function FilesOf(w: World, j: nat, call: ToolUse): seq<Event> {
    var files := w.invoke(j, call).attachments;
    seq(|files|, i requires 0 <= i < |files| => Event(Kind.Attachment, w.json(AttachmentPayload(call.id, files[i]))))
  }

  /** Every result is what its own call's invocation answered, and the client is told of it after that
      invocation's attachments; the batch stops exactly at a failing tool that terminates. */
  predicate Returned(w: World, max: nat, log: seq<Invocation>, calls: seq<ToolUse>, at: seq<nat>, t: Tools) {
    && log <= t.log && AllAnswered(w, max, t.log, at, calls, t.results) && at[0] == |log|
    && if t.stopped
       then |t.results| < |calls| && StoppedBy(w, max, t.log, at[|t.results|], calls[|t.results|])
            && t.sent == ToldOfAll(w, at, calls, t.results) + FilesOf(w, at[|t.results|], calls[|t.results|])
       else |t.results| == |calls| && at[|calls|] == |t.log| && t.sent == ToldOfAll(w, at, calls, t.results)
  }

  lemma {:induction false} ReturnedMore(w: World, max: nat, log: seq<Invocation>, head: seq<ToolUse>, at: seq<nat>, t: Tools, call: ToolUse)
    requires Returned(w, max, log, head, at, t) && !t.stopped
    ensures var u := AfterTool(w, max, t, call);
            Returned(w, max, log, head + [call], if u.stopped then at else at + [|u.log|], u)
  {
    var u := AfterTool(w, max, t, call);
    ToolReturns(w, max, t, call);
    AnswersGrow(w, max, t.log, u.log, at, head, call, t.results);
    if !u.stopped {
      var n := |t.results|;
      assert u.results == t.results + [u.results[n]];
      OneMoreAnswer(w, max, u.log, at, head + [call], t.results, |u.log|, u.results[n]);
      ToldMore(w, at, head + [call], t.results, |u.log|, u.results[n]);
    }
  }

  lemma {:induction false} ToolsReturn(w: World, max: nat, log: seq<Invocation>, calls: seq<ToolUse>) returns (at: seq<nat>)
    ensures Returned(w, max, log, calls, at, AfterTools(w, max, log, calls))
  {
    if calls == [] {
      at := [|log|];
    } else {
      var head, call := calls[..|calls| - 1], calls[|calls| - 1];
      assert calls == head + [call];
      var t := AfterTools(w, max, log, head);
      at := ToolsReturn(w, max, log, head);
      if t.stopped {
        AnswersGrow(w, max, t.log, t.log, at, head, call, t.results);
      } else {
        ReturnedMore(w, max, log, head, at, t, call);
        at := if AfterTool(w, max, t, call).stopped then at else at + [|AfterTool(w, max, t, call).log|];
      }
    }
  }

  // ---- charts

  lemma {:induction false} RefersMore(w: World, results: seq<Block>, b: Block, c: ChartRef)
    ensures Refers(w, results + [b], c) <==> Refers(w, results, c) || (b.ResultBlock? && !b.isError && c in w.refs(b.payload))
  {
    var all := results + [b];
    assert all[|results|] == b && b in all;
    assert forall x | x in results :: x in all;
    assert forall x | x in all :: x in results || x == b;
  }

  lemma {:induction false} ProducedFront(w: World, charts: seq<ChartRef>, results: seq<Block>)
    ensures charts <= Produced(w, charts, results)
    ensures OnePerKey(charts) ==> OnePerKey(Produced(w, charts, results))
  {
    if results != [] {
      var n := |results| - 1;
      ProducedFront(w, charts, results[..n]);
      if results[n].ResultBlock? {
        WithRefsMeans(Produced(w, charts, results[..n]), w.refs(results[n].payload));
      }
    }
  }

  lemma {:induction false} ProducedIffRefers(w: World, charts: seq<ChartRef>, results: seq<Block>, c: ChartRef)
    ensures c in Produced(w, charts, results) ==> c in charts || Refers(w, results, c)
    ensures Refers(w, results, c) ==> c.key in Keys(Produced(w, charts, results))
  {
    if results != [] {
      var head, b := results[..|results| - 1], results[|results| - 1];
      assert results == head + [b];
      ProducedIffRefers(w, charts, head, c);
      RefersMore(w, head, b, c);
      var rest := Produced(w, charts, head);
      if b.ResultBlock? && !b.isError {
        WithRefsMeans(rest, w.refs(b.payload));
        KeysGrow(rest, Produced(w, charts, results));
      }
    }
  }

  lemma {:induction false} KeysGrow(charts: seq<ChartRef>, more: seq<ChartRef>)
    requires charts <= more
    ensures Keys(charts) <= Keys(more)
  {
    forall c | c in charts ensures c in more {
      var i :| 0 <= i < |charts| && charts[i] == c;
      assert more[i] == c;
    }
  }

  /** The charts a batch of results adds are exactly those its successful results refer to, one per key;
      those known before stay in front. */
  lemma {:induction false} ProducedMeans(w: World, charts: seq<ChartRef>, results: seq<Block>)
    ensures charts <= Produced(w, charts, results)
    ensures OnePerKey(charts) ==> OnePerKey(Produced(w, charts, results))
    ensures forall c | c in Produced(w, charts, results) :: c in charts || Refers(w, results, c)
    ensures forall c | Refers(w, results, c) :: c.key in Keys(Produced(w, charts, results))
  {
    ProducedFront(w, charts, results);
    forall c ensures (c in Produced(w, charts, results) ==> c in charts || Refers(w, results, c))
                     && (Refers(w, results, c) ==> c.key in Keys(Produced(w, charts, results))) {
      ProducedIffRefers(w, charts, results, c);
    }
  }

  /** A successful result refers to this chart. */
  predicate Refers(w: World, results: seq<Block>, c: ChartRef) {
    exists b | b in results :: b.ResultBlock? && !b.isError && c in w.refs(b.payload)
  }

  predicate OnePerKey(charts: seq<ChartRef>) {
    forall i, j | 0 <= i < j < |charts| :: charts[i].key != charts[j].key
  }

  lemma {:induction false} WithRefsMeans(charts: seq<ChartRef>, refs: seq<ChartRef>)
    ensures charts <= WithRefs(charts, refs)
    ensures forall c | c in WithRefs(charts, refs) :: c in charts || c in refs
    ensures forall c | c in refs :: c.key in Keys(WithRefs(charts, refs))
    ensures OnePerKey(charts) ==> OnePerKey(WithRefs(charts, refs))
  {
    if refs != [] {
      var n := |refs| - 1;
      WithRefsMeans(charts, refs[..n]);
      var rest, r := WithRefs(charts, refs[..n]), refs[n];
      var all := WithRefs(charts, refs);
      assert refs == refs[..n] + [r];
      if r.key !in Keys(rest) {
        assert all == rest + [r] && r in all;
        forall i | 0 <= i < |rest| ensures rest[i].key != r.key {
          assert rest[i] in rest;
        }
      }
      forall c | c in refs ensures c.key in Keys(all) {
        if c != r {
          var d :| d in rest && d.key == c.key;
          assert d in all;
        }
      }
    }
  }

  /** The charts missing are those referenced that no tool produced, in the order of the references. */
  lemma {:induction false} MissingMeans(referenced: seq<string>, charts: seq<ChartRef>)
    ensures forall k :: k in Missing(referenced, charts) <==> k in referenced && forall c | c in charts :: c.key != k
    ensures |Missing(referenced, charts)| <= |referenced|
    ensures NoneTwice(referenced) ==> NoneTwice(Missing(referenced, charts))
  {
    if referenced != [] {
      var head, last := referenced[..|referenced| - 1], referenced[|referenced| - 1];
      assert referenced == head + [last];
      MissingMeans(head, charts);
      if NoneTwice(referenced) {
        assert NoneTwice(head);
        assert last !in head;
      }
    }
  }

  predicate NoneTwice(ks: seq<string>) { forall i, j | 0 <= i < j < |ks| :: ks[i] != ks[j] }

  /** Patching never drops text: the corrected answer stays in front, alone when no chart is missing. */
  lemma {:induction false} PatchKeepsText(w: World, text: string, charts: seq<ChartRef>)
    ensures var corrected := w.correct(text, charts);
            && (!IsBlank(corrected) ==> corrected <= Patched(w, text, charts))
            && ((forall c | c in charts :: c.key in w.keys(corrected)) ==> Patched(w, text, charts) == corrected)
  {
    var corrected := w.correct(text, charts);
    if forall c | c in charts :: c.key in w.keys(corrected) {
      NoneDropped(charts, w.keys(corrected));
    }
  }

  lemma {:induction false} NoneDropped(charts: seq<ChartRef>, present: seq<string>)
    requires forall c | c in charts :: c.key in present
    ensures Dropped(charts, present) == []
  {
    if charts != [] {
      assert charts[|charts| - 1] in charts;
      NoneDropped(charts[..|charts| - 1], present);
    }
  }

  // ---- iterations

  /** What a response that carries no error and is not cut short leads to. */
  predicate Goes(cfg: Config, w: World, k: nat, s: State) {
    !w.cancelled(k) && FaultOf(Events(w, k, s)).None?
  }

  /** The provider has more for its tools to do. */
  predicate CallsTools(events: seq<LLMEvent>) { CallsOf(events) != [] && StopOf(events) != "end_turn" }

  predicate OwesAnswer(cfg: Config, s: State, text: string) {
    s.recall.NoRecall? && IsBlank(text) && s.nudges < cfg.maxEmptyAnswerRetries
  }

  /** Exactly one chart is referenced that no tool produced. */
  predicate OwesChart(w: World, s: State, text: string) {
    s.recall.NoRecall? && |Missing(w.keys(text), s.charts)| == 1
  }

  /** When a turn goes on it adds the response and one user message: the tools' results, the prompt for
      an answer, or the prompt for the one chart missing; nothing else asks the provider again. */
  lemma {:induction false} IterationContinues(cfg: Config, w: World, k: nat, s: State)
    ensures var events := Events(w, k, s);
            var tools := AfterTools(w, cfg.maxToolRetries, s.log, CallsOf(events));
            var said := if Collected(events).blocks == [] && OwesAnswer(cfg, s, TextOf(events)) then [TextBlock(NO_ANSWER)] else Collected(events).blocks;
            var shown := if s.recall.Recalling? then [] else Streamed(w, cfg.surfaceThoughts, events);
            var e := Step(cfg, w, k, s);
            && (e.Continue? <==>
                  (Goes(cfg, w, k, s) && if CallsTools(events) then !tools.stopped else OwesAnswer(cfg, s, TextOf(events)) || OwesChart(w, s, TextOf(events))))
            && (e.Continue? ==>
                  var t := e.state;
                  if CallsTools(events)
                  then t == s.(msgs := s.msgs + [Message(Assistant, said), Message(User, tools.results)], log := tools.log,
                               charts := Produced(w, s.charts, tools.results),
                               sent := s.sent + shown + if s.recall.Recalling? then [] else tools.sent)
                  else if OwesAnswer(cfg, s, TextOf(events))
                  then t == s.(msgs := s.msgs + [Message(Assistant, said), Says(User, NUDGE)], nudges := s.nudges + 1, sent := s.sent + shown)
                  else t == s.(msgs := s.msgs + [Message(Assistant, said), Says(User, RECALL)], recall := Recalling(TextOf(events)), sent := s.sent + shown))
  {
    CollectedHas(Events(w, k, s));
    CollectedMeans(Events(w, k, s));
  }

  /** A turn completes only when it owes neither an answer nor a chart; its answer is the last response's
      text, or the one a recall kept, with its charts patched; a failure is the turn's own. */
  lemma {:induction false} IterationEnds(cfg: Config, w: World, k: nat, s: State)
    ensures var events := Events(w, k, s);
            var tools := AfterTools(w, cfg.maxToolRetries, s.log, CallsOf(events));
            var answer := if s.recall.Recalling? then s.recall.answer else TextOf(events);
            var e := Step(cfg, w, k, s);
            && (e.End? && e.outcome.Completed? <==>
                  (Goes(cfg, w, k, s) && !CallsTools(events) && !OwesAnswer(cfg, s, TextOf(events)) && !OwesChart(w, s, TextOf(events))))
            && (e.End? && e.outcome.Completed? ==>
                  && e.outcome.answer == Patched(w, answer, s.charts) == LastText(e.outcome.message.content)
                  && e.outcome.message.role.Assistant? && e.outcome.stop == StopOf(events))
            && (e.End? && e.outcome.Failed? ==>
                  e.outcome.code == if w.cancelled(k) then Cancelled
                                    else if FaultOf(events).Some? then FaultOf(events).value else ToolFailed)
            && (e.End? && e.outcome == Failed(ToolFailed) && Goes(cfg, w, k, s) ==> CallsTools(events) && tools.stopped)
            && (e.End? ==> e.sent == s.sent + if w.cancelled(k) || s.recall.Recalling? then [] else
                                                Streamed(w, cfg.surfaceThoughts, events) + if Goes(cfg, w, k, s) && CallsTools(events) then tools.sent else [])
  {
    CollectedHas(Events(w, k, s));
    CollectedMeans(Events(w, k, s));
    OneText(Patched(w, if s.recall.Recalling? then s.recall.answer else TextOf(Events(w, k, s)), s.charts));
  }

  lemma {:induction false} OneText(text: string)
    ensures LastText([TextBlock(text)]) == text
  {
    assert [TextBlock(text)][..0] == [];
  }

  /** A turn is its last iteration's step; one in which no iteration ends it runs out of iterations, having
      sent what they sent. */
  lemma {:induction false} TurnEnds(cfg: Config, w: World, s0: State)
    ensures var step := StepOf(cfg, w);
            forall k | EndsAt(step, cfg.maxIterations, s0, k) :: Turn(cfg, w, s0) == Step(cfg, w, k, Before(step, s0, k).value)
    ensures var step := StepOf(cfg, w);
            (forall k :: !EndsAt(step, cfg.maxIterations, s0, k)) ==>
              && Before(step, s0, cfg.maxIterations).Some?
              && Turn(cfg, w, s0).outcome == Failed(MaxIterations) && Turn(cfg, w, s0).sent == Before(step, s0, cfg.maxIterations).value.sent
  {
    var step := StepOf(cfg, w);
    forall k | EndsAt(step, cfg.maxIterations, s0, k)
      ensures Turn(cfg, w, s0) == Step(cfg, w, k, Before(step, s0, k).value)
    {
      EndsMeans(step, cfg.maxIterations, s0, k);
    }
    if forall k :: !EndsAt(step, cfg.maxIterations, s0, k) {
      RunsOut(step, cfg.maxIterations, s0, 0);
    }
  }

  lemma {:induction false} RunsOut(step: Stepper, max: nat, s0: State, from: nat)
    requires from <= max && Before(step, s0, from).Some? && forall k :: !EndsAt(step, max, s0, k)
    ensures Before(step, s0, max).Some?
    ensures Run(step, max, from, Before(step, s0, from).value) == End(Before(step, s0, max).value.sent, Before(step, s0, max).value.log, Failed(MaxIterations))
    decreases max - from
  {
    if from < max {
      assert !EndsAt(step, max, s0, from);
      RunsOut(step, max, s0, from + 1);
    }
  }

  /** So it is for whole turns: one that completes ends in an iteration that owes nothing, with that
      response's text, or the kept answer, as its own. */
  lemma {:induction false} TurnAnswers(cfg: Config, w: World, s0: State)
    requires Turn(cfg, w, s0).outcome.Completed?
    ensures exists k :: EndsAt(StepOf(cfg, w), cfg.maxIterations, s0, k)
    ensures forall k | EndsAt(StepOf(cfg, w), cfg.maxIterations, s0, k) ::
              var s, o := Before(StepOf(cfg, w), s0, k).value, Turn(cfg, w, s0).outcome;
              var text := TextOf(Events(w, k, s));
              && !CallsTools(Events(w, k, s)) && !OwesAnswer(cfg, s, text) && !OwesChart(w, s, text)
              && o.answer == Patched(w, if s.recall.Recalling? then s.recall.answer else text, s.charts) == LastText(o.message.content)
              && o.stop == StopOf(Events(w, k, s))
  {
    var step := StepOf(cfg, w);
    var last := EndsSomewhere(step, cfg.maxIterations, s0, 0);
    forall k | EndsAt(step, cfg.maxIterations, s0, k)
      ensures Turn(cfg, w, s0) == Step(cfg, w, k, Before(step, s0, k).value)
    {
      EndsMeans(step, cfg.maxIterations, s0, k);
    }
    forall k | EndsAt(step, cfg.maxIterations, s0, k)
      ensures var s, o := Before(step, s0, k).value, Turn(cfg, w, s0).outcome;
              var text := TextOf(Events(w, k, s));
              && !CallsTools(Events(w, k, s)) && !OwesAnswer(cfg, s, text) && !OwesChart(w, s, text)
              && o.answer == Patched(w, if s.recall.Recalling? then s.recall.answer else text, s.charts) == LastText(o.message.content)
              && o.stop == StopOf(Events(w, k, s))
    {
      IterationEnds(cfg, w, k, Before(step, s0, k).value);
    }
  }

  // ---- memory

  /** Memory keeps exactly the texts of a message, and a line for each of its attachments before them. */
  lemma {:induction false} MemoryKeeps(blocks: seq<Block>)
    ensures LastText(TextOnly(blocks)) == LastText(blocks)
    ensures forall b :: b in TextOnly(blocks) <==> b in blocks && b.TextBlock?
    ensures forall b :: b in blocks && b.TextBlock? ==> b in ForMemory(blocks)
    ensures forall b :: b in blocks && b.MediaBlock? ==> exists kept :: kept in ForMemory(blocks) && kept.TextBlock? && Occurs(b.ref, kept.text)
    ensures forall b :: b in ForMemory(blocks) ==> b.TextBlock?
  {
    TextOnlyKeeps(blocks);
    forall b | b in blocks && b.MediaBlock?
      ensures exists kept :: kept in ForMemory(blocks) && kept.TextBlock? && Occurs(b.ref, kept.text)
    {
      MediaKept(blocks, b);
      var refs := MediaRefs(blocks);
      var k :| 0 <= k < |refs| && refs[k] == b.ref;
      JoinHolds("\n", refs, k);
      var line := TextBlock(Join("\n", refs));
      assert line == ForMemory(blocks)[0];
    }
  }

  lemma {:induction false} TextOnlyKeeps(blocks: seq<Block>)
    ensures LastText(TextOnly(blocks)) == LastText(blocks)
    ensures forall b :: b in TextOnly(blocks) <==> b in blocks && b.TextBlock?
  {
    if blocks != [] {
      var n := |blocks| - 1;
      TextOnlyKeeps(blocks[..n]);
      assert blocks == blocks[..n] + [blocks[n]];
      if blocks[n].TextBlock? {
        AddBlock(TextOnly(blocks[..n]), blocks[n]);
      } else {
        assert LastText(blocks[..n]) + "" == LastText(blocks[..n]);
        assert TextOnly(blocks) == TextOnly(blocks[..n]);
      }
    }
  }

  lemma {:induction false} MediaKept(blocks: seq<Block>, b: Block)
    requires b in blocks && b.MediaBlock?
    ensures b.ref in MediaRefs(blocks)
  {
    if blocks[|blocks| - 1] != b {
      MediaKept(blocks[..|blocks| - 1], b);
    }
  }
}
