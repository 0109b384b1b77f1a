/** One turn of the agent (pkg/workflow/builtin/agent/loop.go): the loop between the provider and the
    tools, as a step function and its properties. AgentProcess.dfy holds the loop itself. */
module AgentLoop {
  import opened Messages
  import opened StreamProtocol
  import opened Text
  import opened Wrappers

  // ---- what a turn depends on

  datatype FailCode =
    | MemoryLoad | RenderFailed | Cancelled | Timeout | LLMFailed | ToolFailed
    | NoToolResults | MaxIterations | MemoryAppend

  /** Partial stands for the tool-use start and delta events the loop ignores. */
  datatype LLMEvent =
    | TextDelta(text: string)
    | Reasoning(text: string)
    | Use(call: ToolUse)
    | Stop(reason: string)
    | Fault(code: FailCode)
    | Partial

  /** A tool's answer: payload is its output, or the rendered error when it failed. */
  datatype ToolOutcome = ToolOutcome(attachments: seq<string>, failed: bool, payload: string)

  datatype ChartRef = ChartRef(key: string, url: string)

  datatype Payload =
    | TextPayload(text: string)
    | CallPayload(call: ToolUse)
    | ResultPayload(id: string, output: string, isError: bool)
    | AttachmentPayload(id: string, attachment: string)
    | UnknownTool(name: string)
    | CapReached(name: string, failures: nat)
    | CompletePayload(finalText: string, messageStop: string)
    | ErrorPayload(code: FailCode)

  /** The provider's events per iteration and conversation, the tools' answers per invocation, the
      scans for chart links, and the JSON encoder. */
  datatype World = World(
    llm: (nat, seq<Message>) -> seq<LLMEvent>,
    cancelled: nat -> bool,
    known: string -> bool,
    terminates: string -> bool,
    invoke: (nat, ToolUse) -> ToolOutcome,
    keys: string -> seq<string>,
    refs: string -> seq<ChartRef>,
    correct: (string, seq<ChartRef>) -> string,
    json: Payload -> string)
  {
    /** The chart scans match nothing in an empty text. */
    ghost predicate Sane() {
      keys("") == [] && forall cs: seq<ChartRef> :: correct("", cs) == ""
    }
  }

  datatype Config = Config(maxIterations: nat, maxEmptyAnswerRetries: nat, maxToolRetries: nat, surfaceThoughts: bool)

  /** The prompts for an empty answer and for a missing chart; only their difference matters. */
  const NUDGE := "Please answer."
  const RECALL := "Please call the chart tool."

  const NO_ANSWER := "(no answer)"
  const PARAGRAPH := "\n\n"

  // ---- one provider response

  datatype Round = Round(blocks: seq<Block>, stop: string, calls: seq<ToolUse>, fault: Option<FailCode>)

  /** appendOrExtendText. */
  function AppendText(blocks: seq<Block>, delta: string): seq<Block> {
    if blocks != [] && blocks[|blocks| - 1].TextBlock?
    then blocks[|blocks| - 1 := TextBlock(blocks[|blocks| - 1].text + delta)]
    else blocks + [TextBlock(delta)]
  }

  function Collected(events: seq<LLMEvent>): Round {
    if events == [] then Round([], "", [], None) else
    var r := Collected(events[..|events| - 1]);
    match events[|events| - 1]
    case TextDelta(t) => r.(blocks := AppendText(r.blocks, t))
    case Use(c) => r.(blocks := r.blocks + [UseBlock(c)], calls := r.calls + [c])
    case Stop(reason) => r.(stop := reason)
    case Fault(code) => r.(fault := Some(code))
    case Reasoning(_) => r
    case Partial => r
  }

  function TextOf(events: seq<LLMEvent>): string {
    if events == [] then "" else
    var e := events[|events| - 1];
    TextOf(events[..|events| - 1]) + if e.TextDelta? then e.text else ""
  }

  lemma {:induction false} AppendTextKeeps(blocks: seq<Block>, delta: string)
    ensures LastText(AppendText(blocks, delta)) == LastText(blocks) + delta
    ensures Uses(AppendText(blocks, delta)) == Uses(blocks) && ResultIds(AppendText(blocks, delta)) == ResultIds(blocks)
  {
    var n := |blocks|;
    if n > 0 && blocks[n - 1].TextBlock? {
      assert AppendText(blocks, delta)[..n - 1] == blocks[..n - 1];
    } else {
      assert AppendText(blocks, delta)[..n] == blocks;
    }
  }

  lemma {:induction false} AddBlock(blocks: seq<Block>, b: Block)
    ensures LastText(blocks + [b]) == LastText(blocks) + if b.TextBlock? then b.text else ""
    ensures Uses(blocks + [b]) == Uses(blocks) + if b.UseBlock? then [b.use] else []
    ensures ResultIds(blocks + [b]) == ResultIds(blocks) + if b.ResultBlock? then [b.id] else []
  {
    assert (blocks + [b])[..|blocks|] == blocks;
  }

  predicate TextsApart(blocks: seq<Block>) {
    forall i | 0 <= i < |blocks| - 1 :: !(blocks[i].TextBlock? && blocks[i + 1].TextBlock?)
  }

  predicate Shows(e: LLMEvent) { e.TextDelta? || e.Use? }

  lemma {:induction false} AppendTextApart(blocks: seq<Block>, delta: string)
    requires TextsApart(blocks)
    ensures TextsApart(AppendText(blocks, delta)) && AppendText(blocks, delta) != []
  {
  }

  lemma {:induction false} CollectedShape(events: seq<LLMEvent>)
    ensures TextsApart(Collected(events).blocks)
    ensures Collected(events).blocks == [] <==> forall e | e in events :: !Shows(e)
  {
    if events != [] {
      CollectedShape(events[..|events| - 1]);
      var r, e := Collected(events[..|events| - 1]), events[|events| - 1];
      if e.TextDelta? {
        AppendTextApart(r.blocks, e.text);
      }
      assert Shows(e) ==> Collected(events).blocks != [];
      assert !Shows(e) ==> Collected(events).blocks == r.blocks;
      assert events == events[..|events| - 1] + [events[|events| - 1]];
    }
  }

  /** A response becomes one assistant message: its text is all the text deltas, its tool uses are
      the calls, and two text blocks are never neighbours. */
  lemma {:induction false} CollectedMeans(events: seq<LLMEvent>)
    ensures var r := Collected(events);
            && LastText(r.blocks) == TextOf(events) && Uses(r.blocks) == r.calls && ResultIds(r.blocks) == []
            && TextsApart(r.blocks) && (r.blocks == [] <==> forall e | e in events :: !Shows(e))
  {
    CollectedShape(events);
    CollectedParts(events);
  }

  lemma {:induction false} CollectedParts(events: seq<LLMEvent>)
    ensures var r := Collected(events);
            LastText(r.blocks) == TextOf(events) && Uses(r.blocks) == r.calls && ResultIds(r.blocks) == []
  {
    if events != [] {
      var e := events[|events| - 1];
      CollectedParts(events[..|events| - 1]);
      var r := Collected(events[..|events| - 1]);
      if e.TextDelta? {
        AppendTextKeeps(r.blocks, e.text);
      } else if e.Use? {
        AddBlock(r.blocks, UseBlock(e.call));
      }
    }
  }

  // ---- what a response shows the client

  /** Reasoning collects in a buffer, sent line by line; sent is what the client was shown. */
  datatype Shown = Shown(sent: seq<Event>, buffer: string)

  function Thought(line: string): string {
    if |line| > 300 then line[..300] + "…" else line
  }

  function Flushed(w: World, surface: bool, v: Shown): Shown {
    var line := TrimSpace(v.buffer);
    if line == "" || !surface then v.(buffer := "")
    else Shown(v.sent + [Event(Kind.Thought, w.json(TextPayload(Thought(line))))], "")
  }

  function Fed(w: World, surface: bool, v: Shown, text: string): Shown {
    if text == "" then v else
    var u := Fed(w, surface, v, text[..|text| - 1]);
    var c := text[|text| - 1];
    var grown := u.(buffer := u.buffer + [c]);
    if c == '\n' then Flushed(w, surface, grown) else grown
  }

  function ShownOf(w: World, surface: bool, events: seq<LLMEvent>): Shown {
    if events == [] then Shown([], "") else
    var v := ShownOf(w, surface, events[..|events| - 1]);
    match events[|events| - 1]
    case Reasoning(t) => Fed(w, surface, v, t)
    case TextDelta(t) =>
      var u := Flushed(w, surface, v);
      u.(sent := u.sent + [Event(Kind.Delta, w.json(TextPayload(t)))])
    case Use(c) =>
      var u := Flushed(w, surface, v);
      u.(sent := u.sent + [Event(Kind.ToolCall, w.json(CallPayload(c)))])
    case Stop(_) => v
    case Fault(_) => v
    case Partial => v
  }

  /** Everything one response sends to the client when it is not a forced recall. */
  function Streamed(w: World, surface: bool, events: seq<LLMEvent>): seq<Event> {
    Flushed(w, surface, ShownOf(w, surface, events)).sent
  }

  predicate Quiet(events: seq<Event>) {
    forall e | e in events :: !e.Terminates() && !e.kind.Start?
  }

  lemma {:induction false} FedIsQuiet(w: World, surface: bool, v: Shown, text: string)
    requires Quiet(v.sent)
    ensures Quiet(Fed(w, surface, v, text).sent)
  {
    if text != "" {
      FedIsQuiet(w, surface, v, text[..|text| - 1]);
    }
  }

  lemma {:induction false} StreamedIsQuiet(w: World, surface: bool, events: seq<LLMEvent>)
    ensures Quiet(ShownOf(w, surface, events).sent) && Quiet(Streamed(w, surface, events))
  {
    if events != [] {
      var head := events[..|events| - 1];
      StreamedIsQuiet(w, surface, head);
      if events[|events| - 1].Reasoning? {
        FedIsQuiet(w, surface, ShownOf(w, surface, head), events[|events| - 1].text);
      }
    }
  }

  /** The events of one kind taken out. */
  function Without(kind: Kind, events: seq<Event>): seq<Event> {
    if events == [] then [] else
    var e := events[|events| - 1];
    Without(kind, events[..|events| - 1]) + if e.kind == kind then [] else [e]
  }

  lemma {:induction false} WithoutAdd(kind: Kind, events: seq<Event>, more: seq<Event>)
    ensures Without(kind, events + more) == Without(kind, events) + Without(kind, more)
  {
    if more == [] {
      assert events + more == events;
    } else {
      assert (events + more)[..|events + more| - 1] == events + more[..|more| - 1];
      WithoutAdd(kind, events, more[..|more| - 1]);
    }
  }

  lemma {:induction false} WithoutOne(kind: Kind, e: Event)
    ensures Without(kind, [e]) == if e.kind == kind then [] else [e]
  {
    assert [e][..0] == [];
  }

  /** The text deltas and tool calls of a response, in order. */
  function Visible(w: World, events: seq<LLMEvent>): seq<Event> {
    if events == [] then [] else
    var e := events[|events| - 1];
    Visible(w, events[..|events| - 1])
    + if e.TextDelta? then [Event(Kind.Delta, w.json(TextPayload(e.text)))]
      else if e.Use? then [Event(Kind.ToolCall, w.json(CallPayload(e.call)))] else []
  }

  /** u shows what v shows and perhaps thoughts, which only a configuration that surfaces them has. */
  predicate OnlyThoughtsMore(surface: bool, v: Shown, u: Shown) {
    Without(Kind.Thought, u.sent) == Without(Kind.Thought, v.sent) && (!surface ==> u.sent == v.sent)
  }

  lemma {:induction false} FlushedThoughts(w: World, surface: bool, v: Shown)
    ensures OnlyThoughtsMore(surface, v, Flushed(w, surface, v))
  {
    var u := Flushed(w, surface, v);
    if u.sent != v.sent {
      var thought := u.sent[|v.sent|];
      WithoutOne(Kind.Thought, thought);
      WithoutAdd(Kind.Thought, v.sent, [thought]);
    }
  }

  lemma {:induction false} FedThoughts(w: World, surface: bool, v: Shown, text: string)
    ensures OnlyThoughtsMore(surface, v, Fed(w, surface, v, text))
  {
    if text != "" {
      FedThoughts(w, surface, v, text[..|text| - 1]);
      var u := Fed(w, surface, v, text[..|text| - 1]);
      FlushedThoughts(w, surface, u.(buffer := u.buffer + [text[|text| - 1]]));
    }
  }

  /** Apart from thoughts the client is shown exactly the text deltas and tool calls, in order; without
      surfaced thoughts, nothing else. */
  lemma {:induction false} StreamedMeans(w: World, surface: bool, events: seq<LLMEvent>)
    ensures Without(Kind.Thought, Streamed(w, surface, events)) == Visible(w, events)
    ensures !surface ==> Streamed(w, surface, events) == Visible(w, events)
  {
    ShownMeans(w, surface, events);
    FlushedThoughts(w, surface, ShownOf(w, surface, events));
  }

  lemma {:induction false} ShownMeans(w: World, surface: bool, events: seq<LLMEvent>)
    ensures Without(Kind.Thought, ShownOf(w, surface, events).sent) == Visible(w, events)
    ensures !surface ==> ShownOf(w, surface, events).sent == Visible(w, events)
  {
    if events != [] {
      var head, e := events[..|events| - 1], events[|events| - 1];
      ShownMeans(w, surface, head);
      var v := ShownOf(w, surface, head);
      if e.Reasoning? {
        FedThoughts(w, surface, v, e.text);
      } else if e.TextDelta? || e.Use? {
        var u := Flushed(w, surface, v);
        FlushedThoughts(w, surface, v);
        var shown := if e.TextDelta? then Event(Kind.Delta, w.json(TextPayload(e.text)))
                     else Event(Kind.ToolCall, w.json(CallPayload(e.call)));
        WithoutOne(Kind.Thought, shown);
        WithoutAdd(Kind.Thought, u.sent, [shown]);
      }
    }
  }

  // ---- tools

  datatype Invocation = Invocation(name: string, failed: bool)

  function Failures(log: seq<Invocation>, name: string): nat {
    if log == [] then 0 else
    var i := log[|log| - 1];
    Failures(log[..|log| - 1], name) + if i.failed && i.name == name then 1 else 0
  }

  predicate BlankPayload(p: string) {
    TrimSpace(p) in {"", "\"\"", "null"}
  }

  const NO_OUTPUT := "\"(tool returned no output)\""

  /** stopped: a tool whose failure policy is terminate failed. */
  datatype Tools = Tools(log: seq<Invocation>, results: seq<Block>, sent: seq<Event>, stopped: bool)

  function Attached(w: World, id: string, attachments: seq<string>): seq<Event> {
    seq(|attachments|, i requires 0 <= i < |attachments| =>
      Event(Kind.Attachment, w.json(AttachmentPayload(id, attachments[i]))))
  }

  function Answered(w: World, t: Tools, id: string, payload: string, isError: bool): Tools {
    t.(results := t.results + [ResultBlock(id, payload, isError)],
       sent := t.sent + [Event(Kind.ToolResult, w.json(ResultPayload(id, payload, isError)))])
  }

  function AfterTool(w: World, max: nat, t: Tools, call: ToolUse): Tools {
    if t.stopped then t
    else if !w.known(call.name) then
      t.(results := t.results + [ResultBlock(call.id, w.json(UnknownTool(call.name)), true)])
    else if Failures(t.log, call.name) > max then
      Answered(w, t, call.id, w.json(CapReached(call.name, Failures(t.log, call.name))), true)
    else
      var o := w.invoke(|t.log|, call);
      var u := t.(log := t.log + [Invocation(call.name, o.failed)], sent := t.sent + Attached(w, call.id, o.attachments));
      if o.failed && w.terminates(call.name) then u.(stopped := true)
      else Answered(w, u, call.id, if !o.failed && BlankPayload(o.payload) then NO_OUTPUT else o.payload, o.failed)
  }

  function AfterTools(w: World, max: nat, log: seq<Invocation>, calls: seq<ToolUse>): Tools {
    if calls == [] then Tools(log, [], [], false)
    else AfterTool(w, max, AfterTools(w, max, log, calls[..|calls| - 1]), calls[|calls| - 1])
  }

  /** No invocation came after its tool had failed more than max times. */
  predicate CapKept(log: seq<Invocation>, max: nat) {
    forall k | 0 <= k < |log| :: Failures(log[..k], log[k].name) <= max
  }

  lemma {:induction false} CapKeptAdd(log: seq<Invocation>, i: Invocation, max: nat)
    requires CapKept(log, max) && Failures(log, i.name) <= max
    ensures CapKept(log + [i], max)
  {
    var more := log + [i];
    forall k | 0 <= k < |more| ensures Failures(more[..k], more[k].name) <= max {
      assert more[..k] == log[..k];
    }
    assert log[..|log|] == log;
  }

  /** The cap bounds every tool's failures, and a tool at the bound is never invoked again. */
  lemma {:induction false} CapBoundsFailures(log: seq<Invocation>, max: nat, name: string)
    requires CapKept(log, max)
    ensures Failures(log, name) <= max + 1
    ensures forall k | 0 <= k < |log| && Failures(log[..k], name) > max :: log[k].name != name
  {
    if log != [] {
      var head := log[..|log| - 1];
      forall k | 0 <= k < |head| ensures head[..k] == log[..k] {
      }
      CapBoundsFailures(head, max, name);
      assert log[..|log| - 1] == head;
    }
  }

  /** One answer per call so far, in order; nothing blank, and the cap kept. */
  predicate ToolsOk(max: nat, log: seq<Invocation>, calls: seq<ToolUse>, t: Tools) {
    && CapKept(t.log, max) && log <= t.log
    && Quiet(t.sent)
    && (forall b | b in t.results :: b.ResultBlock? && (!b.isError ==> !BlankPayload(b.payload)))
    && Uses(t.results) == []
    && (!t.stopped ==> |t.results| == |calls| && ResultIds(t.results) == Ids(calls))
  }

  lemma {:induction false} AnswerOk(max: nat, log: seq<Invocation>, calls: seq<ToolUse>, t: Tools, call: ToolUse, u: Tools, payload: string, isError: bool)
    requires ToolsOk(max, log, calls, t) && !t.stopped
    requires CapKept(u.log, max) && log <= u.log && Quiet(u.sent) && !u.stopped
    requires u.results == t.results + [ResultBlock(call.id, payload, isError)]
    requires isError || !BlankPayload(payload)
    ensures ToolsOk(max, log, calls + [call], u)
  {
    AddBlock(t.results, ResultBlock(call.id, payload, isError));
    assert Ids(calls + [call]) == Ids(calls) + [call.id];
  }

  lemma {:induction false} AnsweredOk(w: World, max: nat, log: seq<Invocation>, calls: seq<ToolUse>, t: Tools, call: ToolUse, u: Tools, payload: string, isError: bool)
    requires ToolsOk(max, log, calls, t) && !t.stopped
    requires CapKept(u.log, max) && log <= u.log && Quiet(u.sent) && !u.stopped && u.results == t.results
    requires isError || !BlankPayload(payload)
    ensures ToolsOk(max, log, calls + [call], Answered(w, u, call.id, payload, isError))
  {
    AnswerOk(max, log, calls, t, call, Answered(w, u, call.id, payload, isError), payload, isError);
  }

  lemma {:induction false} InvokedOk(w: World, max: nat, log: seq<Invocation>, calls: seq<ToolUse>, t: Tools, call: ToolUse)
    requires ToolsOk(max, log, calls, t) && !t.stopped && w.known(call.name) && Failures(t.log, call.name) <= max
    ensures ToolsOk(max, log, calls + [call], AfterTool(w, max, t, call))
  {
    var o := w.invoke(|t.log|, call);
    var u := t.(log := t.log + [Invocation(call.name, o.failed)], sent := t.sent + Attached(w, call.id, o.attachments));
    CapKeptAdd(t.log, Invocation(call.name, o.failed), max);
    if !(o.failed && w.terminates(call.name)) {
      NoOutputShows();
      AnsweredOk(w, max, log, calls, t, call, u, if !o.failed && BlankPayload(o.payload) then NO_OUTPUT else o.payload, o.failed);
    }
  }

  lemma {:induction false} ToolOk(w: World, max: nat, log: seq<Invocation>, calls: seq<ToolUse>, t: Tools, call: ToolUse)
    requires ToolsOk(max, log, calls, t)
    ensures ToolsOk(max, log, calls + [call], AfterTool(w, max, t, call))
  {
    if t.stopped {
    } else if !w.known(call.name) {
      AnswerOk(max, log, calls, t, call, AfterTool(w, max, t, call), w.json(UnknownTool(call.name)), true);
    } else if Failures(t.log, call.name) > max {
      AnsweredOk(w, max, log, calls, t, call, t, w.json(CapReached(call.name, Failures(t.log, call.name))), true);
    } else {
      InvokedOk(w, max, log, calls, t, call);
    }
  }

  /** A batch of tool calls: the results answer the calls one for one, in order, unless a terminating
      tool failed; successful results are never blank; the retry cap is kept. */
  lemma {:induction false} ToolsAnswer(w: World, max: nat, log: seq<Invocation>, calls: seq<ToolUse>)
    requires CapKept(log, max)
    ensures ToolsOk(max, log, calls, AfterTools(w, max, log, calls))
  {
    if calls == [] {
      assert Ids(calls) == [];
    } else {
      var head, call := calls[..|calls| - 1], calls[|calls| - 1];
      assert calls == head + [call];
      ToolsAnswer(w, max, log, head);
      ToolOk(w, max, log, head, AfterTools(w, max, log, head), call);
    }
  }

  /** The events of the answers, but for those of unknown tools, which the client is not told. */
  function AnswerEvents(w: World, calls: seq<ToolUse>, results: seq<Block>): seq<Event> {
    if calls == [] || |results| != |calls| then [] else
    var n := |calls| - 1;
    AnswerEvents(w, calls[..n], results[..n])
    + if w.known(calls[n].name) && results[n].ResultBlock?
      then [Event(Kind.ToolResult, w.json(ResultPayload(results[n].id, results[n].payload, results[n].isError)))] else []
  }

  lemma {:induction false} AttachedVanish(w: World, id: string, attachments: seq<string>)
    ensures Without(Kind.Attachment, Attached(w, id, attachments)) == []
  {
    if attachments != [] {
      var all := Attached(w, id, attachments);
      assert all[..|all| - 1] == Attached(w, id, attachments[..|attachments| - 1]);
      AttachedVanish(w, id, attachments[..|attachments| - 1]);
    }
  }

  /** Apart from attachments the client sees the result of every known tool, as the model sees it. */
  lemma {:induction false} ToolsShow(w: World, max: nat, log: seq<Invocation>, calls: seq<ToolUse>)
    ensures var t := AfterTools(w, max, log, calls);
            !t.stopped ==> |t.results| == |calls| && Without(Kind.Attachment, t.sent) == AnswerEvents(w, calls, t.results)
  {
    if calls != [] {
      var n := |calls| - 1;
      ToolsShow(w, max, log, calls[..n]);
      var t, u := AfterTools(w, max, log, calls[..n]), AfterTools(w, max, log, calls);
      if !u.stopped {
        ToolShows(w, max, t, calls[n]);
        assert u.results[..n] == t.results;
      }
    }
  }

  lemma {:induction false} ToolShows(w: World, max: nat, t: Tools, call: ToolUse)
    requires !t.stopped && !AfterTool(w, max, t, call).stopped
    ensures var u := AfterTool(w, max, t, call);
            && |u.results| == |t.results| + 1 && u.results[..|t.results|] == t.results
            && var r := u.results[|t.results|];
               r.ResultBlock? && Without(Kind.Attachment, u.sent) == Without(Kind.Attachment, t.sent)
                 + if w.known(call.name) then [Event(Kind.ToolResult, w.json(ResultPayload(r.id, r.payload, r.isError)))] else []
  {
    if w.known(call.name) {
      if Failures(t.log, call.name) > max {
        AnsweredShows(w, t, call.id, w.json(CapReached(call.name, Failures(t.log, call.name))), true);
      } else {
        InvokedShows(w, max, t, call);
      }
    }
  }

  lemma {:induction false} AnsweredShows(w: World, t: Tools, id: string, payload: string, isError: bool)
    ensures var u := Answered(w, t, id, payload, isError);
            && u.results == t.results + [ResultBlock(id, payload, isError)]
            && Without(Kind.Attachment, u.sent) ==
               Without(Kind.Attachment, t.sent) + [Event(Kind.ToolResult, w.json(ResultPayload(id, payload, isError)))]
  {
    var told := Event(Kind.ToolResult, w.json(ResultPayload(id, payload, isError)));
    WithoutOne(Kind.Attachment, told);
    WithoutAdd(Kind.Attachment, t.sent, [told]);
  }

  lemma {:induction false} InvokedShows(w: World, max: nat, t: Tools, call: ToolUse)
    requires !t.stopped && w.known(call.name) && Failures(t.log, call.name) <= max && !AfterTool(w, max, t, call).stopped
    ensures var u := AfterTool(w, max, t, call);
            && |u.results| == |t.results| + 1 && u.results[..|t.results|] == t.results
            && var r := u.results[|t.results|];
               r.ResultBlock? && Without(Kind.Attachment, u.sent) == Without(Kind.Attachment, t.sent)
                 + [Event(Kind.ToolResult, w.json(ResultPayload(r.id, r.payload, r.isError)))]
  {
    var o := w.invoke(|t.log|, call);
    var u := t.(log := t.log + [Invocation(call.name, o.failed)], sent := t.sent + Attached(w, call.id, o.attachments));
    AttachedVanish(w, call.id, o.attachments);
    WithoutAdd(Kind.Attachment, t.sent, Attached(w, call.id, o.attachments));
    AnsweredShows(w, u, call.id, if !o.failed && BlankPayload(o.payload) then NO_OUTPUT else o.payload, o.failed);
  }

  lemma {:induction false} NoOutputShows()
    ensures !BlankPayload(NO_OUTPUT)
  {
    assert !IsSpace(NO_OUTPUT[0]) && !IsSpace(NO_OUTPUT[|NO_OUTPUT| - 1]);
    assert TrimSpace(NO_OUTPUT) == NO_OUTPUT && |NO_OUTPUT| > 4;
  }

  // ---- charts

  function Keys(charts: seq<ChartRef>): set<string> { set c | c in charts :: c.key }

  function WithRefs(charts: seq<ChartRef>, refs: seq<ChartRef>): seq<ChartRef> {
    if refs == [] then charts else
    var rest := WithRefs(charts, refs[..|refs| - 1]);
    var r := refs[|refs| - 1];
    if r.key in Keys(rest) then rest else rest + [r]
  }

  /** The charts of the successful results, added once per key. */
  function Produced(w: World, charts: seq<ChartRef>, results: seq<Block>): seq<ChartRef> {
    if results == [] then charts else
    var rest := Produced(w, charts, results[..|results| - 1]);
    var b := results[|results| - 1];
    if b.ResultBlock? && !b.isError then WithRefs(rest, w.refs(b.payload)) else rest
  }

  function Missing(referenced: seq<string>, charts: seq<ChartRef>): seq<string> {
    if referenced == [] then [] else
    var k := referenced[|referenced| - 1];
    Missing(referenced[..|referenced| - 1], charts) + if k in Keys(charts) then [] else [k]
  }

  function Image(c: ChartRef): string { "![chart](" + c.url + ")" }

  /** Images of the charts whose key is not among present. */
  function Dropped(charts: seq<ChartRef>, present: seq<string>): seq<string> {
    if charts == [] then [] else
    var c := charts[|charts| - 1];
    Dropped(charts[..|charts| - 1], present) + if c.key in present then [] else [Image(c)]
  }

  /** correctChartRefs, then appendMissingCharts. */
  function Patched(w: World, text: string, charts: seq<ChartRef>): string {
    var corrected := w.correct(text, charts);
    var add := Dropped(charts, w.keys(corrected));
    if add == [] then corrected
    else if IsBlank(corrected) then Join(PARAGRAPH, add)
    else corrected + PARAGRAPH + Join(PARAGRAPH, add)
  }

  lemma {:induction false} DroppedHas(charts: seq<ChartRef>, present: seq<string>, c: ChartRef)
    requires c in charts && c.key !in present
    ensures Image(c) in Dropped(charts, present)
  {
    if charts[|charts| - 1] != c {
      DroppedHas(charts[..|charts| - 1], present, c);
    }
  }

  /** No chart produced this turn is silently dropped from the answer. */
  lemma {:induction false} NoChartDropped(w: World, text: string, charts: seq<ChartRef>, c: ChartRef)
    requires c in charts
    ensures c.key in w.keys(w.correct(text, charts)) || Occurs("![chart](" + c.url + ")", Patched(w, text, charts))
  {
    var corrected := w.correct(text, charts);
    if c.key !in w.keys(corrected) {
      var add := Dropped(charts, w.keys(corrected));
      DroppedHas(charts, w.keys(corrected), c);
      var k :| 0 <= k < |add| && add[k] == Image(c);
      JoinHolds(PARAGRAPH, add, k);
      OccursWithin(Image(c), corrected + PARAGRAPH, Join(PARAGRAPH, add), "");
      assert corrected + PARAGRAPH + Join(PARAGRAPH, add) + "" == corrected + PARAGRAPH + Join(PARAGRAPH, add);
    }
  }

  // ---- the turn

  /** Forced chart recall: Recalling keeps the answer already on screen. */
  datatype Recall = NoRecall | Recalling(answer: string)

  /** The loop's state before an iteration; sent is what the client has been sent. */
  datatype State = State(msgs: seq<Message>, nudges: nat, log: seq<Invocation>, charts: seq<ChartRef>, recall: Recall, sent: seq<Event>)

  datatype Outcome = Completed(answer: string, stop: string, message: Message) | Failed(code: FailCode)

  datatype Next = Continue(state: State) | End(sent: seq<Event>, log: seq<Invocation>, outcome: Outcome)

  function Events(w: World, iter: nat, s: State): seq<LLMEvent> { w.llm(iter, s.msgs) }

  function RoundAt(w: World, iter: nat, s: State): Round { Collected(Events(w, iter, s)) }

  /** The client's view grows only outside a forced recall. */
  function Emit(s: State, more: seq<Event>): State {
    if s.recall.Recalling? then s else s.(sent := s.sent + more)
  }

  function Say(s: State, assistant: seq<Block>, user: Message): State {
    s.(msgs := s.msgs + [Message(Assistant, assistant), user])
  }

  /** The provider ended its turn: nudge it, recall one chart, or finish. */
  function Conclude(cfg: Config, w: World, s: State, r: Round): Next {
    var text := LastText(r.blocks);
    if s.recall.NoRecall? && IsBlank(text) && s.nudges < cfg.maxEmptyAnswerRetries then
      var said := if r.blocks == [] then [TextBlock(NO_ANSWER)] else r.blocks;
      Continue(Say(s, said, Says(User, NUDGE)).(nudges := s.nudges + 1))
    else
      var answer := if s.recall.Recalling? then s.recall.answer else text;
      if s.recall.NoRecall? && |Missing(w.keys(answer), s.charts)| == 1 then
        Continue(Say(s, r.blocks, Says(User, RECALL)).(recall := Recalling(answer)))
      else
        var patched := Patched(w, answer, s.charts);
        var message := if patched != answer || s.recall.Recalling? then Says(Assistant, patched)
                       else Message(Assistant, r.blocks);
        End(s.sent, s.log, Completed(patched, r.stop, message))
  }

  function UseTools(cfg: Config, w: World, s: State, r: Round): Next {
    var t := AfterTools(w, cfg.maxToolRetries, s.log, r.calls);
    var u := Emit(s, t.sent).(log := t.log);
    if t.stopped then End(u.sent, u.log, Failed(ToolFailed))
    else Continue(Say(u, r.blocks, Message(User, t.results)).(charts := Produced(w, s.charts, t.results)))
  }

  /** What follows a response r that showed the client these events. */
  function Respond(cfg: Config, w: World, s: State, r: Round, shown: seq<Event>): Next {
    var u := Emit(s, shown);
    if r.fault.Some? then End(u.sent, u.log, Failed(r.fault.value))
    else if r.stop == "end_turn" || r.calls == [] then Conclude(cfg, w, u, r)
    else UseTools(cfg, w, u, r)
  }

  function Step(cfg: Config, w: World, iter: nat, s: State): Next {
    if w.cancelled(iter) then End(s.sent, s.log, Failed(Cancelled))
    else Respond(cfg, w, s, RoundAt(w, iter, s), Streamed(w, cfg.surfaceThoughts, Events(w, iter, s)))
  }

  /** One iteration, as a value. */
  type Stepper = (nat, State) -> Next

  function StepOf(cfg: Config, w: World): Stepper {
    (iter: nat, s: State) => Step(cfg, w, iter, s)
  }

  /** The rest of the turn from iteration iter. */
  function Run(step: Stepper, max: nat, iter: nat, s: State): (r: Next)
    ensures r.End?
    decreases max - iter
  {
    if iter >= max then End(s.sent, s.log, Failed(MaxIterations)) else
    match step(iter, s)
    case End(sent, log, o) => End(sent, log, o)
    case Continue(t) => Run(step, max, iter + 1, t)
  }

  function Opening(history: seq<Message>, user: Message): State {
    State(history + [user], 0, [], [], NoRecall, [])
  }

  /** The state in which iteration k begins, if the turn gets that far. */
  function Before(step: Stepper, s0: State, k: nat): Option<State> {
    if k == 0 then Some(s0) else
    match Before(step, s0, k - 1)
    case None => None
    case Some(s) => (match step(k - 1, s) case End(_, _, _) => None case Continue(t) => Some(t))
  }

  /** Iteration k calls the provider. */
  predicate Sent(step: Stepper, max: nat, cancelled: nat -> bool, s0: State, k: nat) {
    k < max && !cancelled(k) && Before(step, s0, k).Some?
  }

  /** The conversation it sends. */
  function Request(step: Stepper, s0: State, k: nat): seq<Message>
    requires Before(step, s0, k).Some?
  {
    Before(step, s0, k).value.msgs
  }

  // ---- the conversation stays legal

  /** The provider stopped with end_turn although it called tools. */
  predicate Clash(r: Round) { r.stop == "end_turn" && r.calls != [] }

  /** Two more messages: the first fits, and the second does exactly when it answers the first. */
  lemma {:induction false} TwoMore(asks: Reader, answers: Reader, msgs: seq<Message>, a: Message, u: Message)
    requires LinkedBy(asks, answers, msgs) && Fits(asks, answers, msgs, a) && u.content != []
    requires u.role == (if |msgs| % 2 == 0 then Assistant else User)
    ensures LinkedBy(asks, answers, msgs + [a, u]) <==> answers(u) == asks(a)
  {
    LinkedAdd(asks, answers, msgs, a);
    LinkedAdd(asks, answers, msgs + [a], u);
    assert msgs + [a] + [u] == msgs + [a, u];
  }

  lemma {:induction false} SayLinks(s: State, assistant: seq<Block>, user: Message)
    requires Legal(s.msgs) && assistant != [] && ResultIds(assistant) == []
    requires user.role.User? && user.content != []
    ensures WellFormed(Say(s, assistant, user).msgs) <==> ResultIds(user.content) == Ids(Uses(assistant))
  {
    NonEmptyIds(Uses(s.msgs[|s.msgs| - 1].content));
    var a := Message(Assistant, assistant);
    assert Asks()(s.msgs[|s.msgs| - 1]) == Replies()(a);
    LinkedAdd(Asks(), Replies(), s.msgs, a);
    TwoMore(Asks(), Replies(), s.msgs, a, user);
  }

  lemma {:induction false} SaysHolds(role: Role, text: string)
    ensures Uses(Says(role, text).content) == [] && ResultIds(Says(role, text).content) == []
  {
    assert [TextBlock(text)][..0] == [];
    AddBlock([], TextBlock(text));
  }

  lemma {:induction false} NonEmptyIds(uses: seq<ToolUse>)
    ensures Ids(uses) == [] <==> uses == []
  {
    assert |Ids(uses)| == |uses|;
  }

  /** Uses of the last message, which a request always has none of. */
  predicate Legal(msgs: seq<Message>) {
    WellFormed(msgs) && Uses(msgs[|msgs| - 1].content) == []
  }

  /** One more exchange keeps the conversation legal exactly when the response did not both call
      tools and end its turn. */
  lemma {:induction false} StepLegal(cfg: Config, w: World, iter: nat, s: State)
    requires w.Sane() && Legal(s.msgs) && CapKept(s.log, cfg.maxToolRetries)
    requires Step(cfg, w, iter, s).Continue?
    ensures var t := Step(cfg, w, iter, s).state;
            && CapKept(t.log, cfg.maxToolRetries)
            && (WellFormed(t.msgs) <==> !Clash(RoundAt(w, iter, s)))
            && (WellFormed(t.msgs) ==> Legal(t.msgs))
  {
    CollectedMeans(Events(w, iter, s));
    RespondLegal(cfg, w, s, RoundAt(w, iter, s), Streamed(w, cfg.surfaceThoughts, Events(w, iter, s)));
  }

  lemma {:induction false} RespondLegal(cfg: Config, w: World, s: State, r: Round, shown: seq<Event>)
    requires w.Sane() && Legal(s.msgs) && CapKept(s.log, cfg.maxToolRetries)
    requires Uses(r.blocks) == r.calls && ResultIds(r.blocks) == []
    requires Respond(cfg, w, s, r, shown).Continue?
    ensures var t := Respond(cfg, w, s, r, shown).state;
            && CapKept(t.log, cfg.maxToolRetries)
            && (WellFormed(t.msgs) <==> !Clash(r))
            && (WellFormed(t.msgs) ==> Legal(t.msgs))
  {
    if r.stop == "end_turn" || r.calls == [] {
      ConcludeLegal(cfg, w, Emit(s, shown), r);
    } else {
      assert r.blocks != [];
      ToolsAnswer(w, cfg.maxToolRetries, s.log, r.calls);
      NonEmptyIds(r.calls);
      SayLinks(s, r.blocks, Message(User, AfterTools(w, cfg.maxToolRetries, s.log, r.calls).results));
    }
  }

  lemma {:induction false} ConcludeLegal(cfg: Config, w: World, s: State, r: Round)
    requires w.Sane() && Legal(s.msgs) && Uses(r.blocks) == r.calls && ResultIds(r.blocks) == []
    requires r.stop == "end_turn" || r.calls == []
    requires Conclude(cfg, w, s, r).Continue?
    ensures var t := Conclude(cfg, w, s, r).state;
            t.log == s.log && (WellFormed(t.msgs) <==> !Clash(r)) && Uses(t.msgs[|t.msgs| - 1].content) == []
  {
    NonEmptyIds(r.calls);
    SaysHolds(User, NUDGE);
    SaysHolds(User, RECALL);
    SaysHolds(Assistant, NO_ANSWER);
    var t := Conclude(cfg, w, s, r).state;
    if s.recall.NoRecall? && IsBlank(LastText(r.blocks)) && s.nudges < cfg.maxEmptyAnswerRetries {
      SayLinks(s, if r.blocks == [] then [TextBlock(NO_ANSWER)] else r.blocks, Says(User, NUDGE));
    } else {
      assert LastText([]) == "" && Missing([], s.charts) == [];
      SayLinks(s, r.blocks, Says(User, RECALL));
    }
  }

  predicate HoldsAt(step: Stepper, s0: State, bad: (nat, State) -> bool, k: nat) {
    Before(step, s0, k).Some? && bad(k, Before(step, s0, k).value)
  }

  ghost predicate HeldBefore(step: Stepper, s0: State, bad: (nat, State) -> bool, k: nat) {
    exists j: nat :: j < k && HoldsAt(step, s0, bad, j)
  }

  /** From a good state, an iteration leads to a well-formed conversation, and then a good state,
      exactly when it is not bad; a cancelled one leads nowhere. */
  ghost predicate BadBreaks(wf: seq<Message> -> bool, step: Stepper, cancelled: nat -> bool, good: State -> bool, bad: (nat, State) -> bool) {
    forall k: nat, s: State {:trigger step(k, s)} | step(k, s).Continue? ::
      && !cancelled(k)
      && (good(s) ==> (wf(step(k, s).state.msgs) <==> !bad(k, s)))
      && (good(s) && !bad(k, s) ==> good(step(k, s).state))
  }

  lemma {:induction false} BeforeEarlier(step: Stepper, s0: State, j: nat, k: nat)
    requires j <= k && Before(step, s0, k).Some?
    ensures Before(step, s0, j).Some?
    ensures j < k ==> step(j, Before(step, s0, j).value).Continue?
  {
    if j < k {
      BeforeEarlier(step, s0, j, k - 1);
    }
  }

  lemma {:induction false} GoodUntilBad(wf: seq<Message> -> bool, step: Stepper, cancelled: nat -> bool, good: State -> bool, bad: (nat, State) -> bool, s0: State, k: nat)
    requires BadBreaks(wf, step, cancelled, good, bad) && good(s0)
    requires Before(step, s0, k).Some? && !HeldBefore(step, s0, bad, k)
    ensures good(Before(step, s0, k).value)
  {
    if k > 0 {
      BeforeEarlier(step, s0, k - 1, k);
      assert !HoldsAt(step, s0, bad, k - 1);
      GoodUntilBad(wf, step, cancelled, good, bad, s0, k - 1);
    }
  }

  lemma {:induction false} FirstBad(step: Stepper, s0: State, bad: (nat, State) -> bool, k: nat) returns (j: nat)
    requires HeldBefore(step, s0, bad, k)
    ensures j < k && HoldsAt(step, s0, bad, j) && !HeldBefore(step, s0, bad, j)
  {
    j :| j < k && HoldsAt(step, s0, bad, j);
    if HeldBefore(step, s0, bad, j) {
      j := FirstBad(step, s0, bad, j);
    }
  }

  lemma {:induction false} WellFormedIffNeverBad(wf: seq<Message> -> bool, step: Stepper, max: nat, cancelled: nat -> bool, good: State -> bool, bad: (nat, State) -> bool, s0: State)
    requires BadBreaks(wf, step, cancelled, good, bad) && good(s0)
    requires forall s | good(s) :: wf(s.msgs)
    ensures (forall k: nat | Sent(step, max, cancelled, s0, k) :: wf(Request(step, s0, k)))
            <==> (forall k: nat | Sent(step, max, cancelled, s0, k + 1) :: !HoldsAt(step, s0, bad, k))
  {
    forall k: nat | Sent(step, max, cancelled, s0, k) && !HeldBefore(step, s0, bad, k)
      ensures wf(Request(step, s0, k))
    {
      GoodUntilBad(wf, step, cancelled, good, bad, s0, k);
    }
    forall k: nat | Sent(step, max, cancelled, s0, k) && HeldBefore(step, s0, bad, k)
      ensures exists j: nat :: Sent(step, max, cancelled, s0, j + 1) && HoldsAt(step, s0, bad, j) && !wf(Request(step, s0, j + 1))
    {
      var j := FirstBad(step, s0, bad, k);
      BeforeEarlier(step, s0, j + 1, k);
      BeforeEarlier(step, s0, j, k);
      GoodUntilBad(wf, step, cancelled, good, bad, s0, j);
      assert Sent(step, max, cancelled, s0, j + 1);
    }
  }

  function ClashOf(w: World): (nat, State) -> bool {
    (k: nat, s: State) => Clash(RoundAt(w, k, s))
  }

  /** On a good history, every conversation sent is well formed exactly when no response that is
      followed by another request both called tools and reported end_turn. */
  lemma {:induction false} RequestsWellFormedIff(cfg: Config, w: World, s0: State)
    requires w.Sane() && Legal(s0.msgs) && s0.log == []
    ensures var step := StepOf(cfg, w);
            (forall k: nat | Sent(step, cfg.maxIterations, w.cancelled, s0, k) :: WellFormed(Request(step, s0, k)))
            <==> (forall k: nat | Sent(step, cfg.maxIterations, w.cancelled, s0, k + 1) :: !HoldsAt(step, s0, ClashOf(w), k))
  {
    var step := StepOf(cfg, w);
    var good := (s: State) => Legal(s.msgs) && CapKept(s.log, cfg.maxToolRetries);
    forall k: nat, s: State | step(k, s).Continue?
      ensures !w.cancelled(k)
      ensures good(s) ==> (WellFormed(step(k, s).state.msgs) <==> !ClashOf(w)(k, s))
      ensures good(s) && !ClashOf(w)(k, s) ==> good(step(k, s).state)
    {
      if good(s) {
        StepLegal(cfg, w, k, s);
      }
    }
    WellFormedIffNeverBad((m: seq<Message>) => WellFormed(m), step, cfg.maxIterations, w.cancelled, good, ClashOf(w), s0);
  }

  lemma {:induction false} OpeningIsLegal(history: seq<Message>, user: Message)
    requires HistoryOk(history)
    requires user.role.User? && user.content != [] && Uses(user.content) == [] && ResultIds(user.content) == []
    ensures Opening(history, user).msgs == history + [user]
    ensures Legal(Opening(history, user).msgs)
  {
    NonEmptyIds([]);
    LinkedAdd(Asks(), Replies(), history, user);
  }
}
