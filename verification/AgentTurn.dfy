/** Properties of whole turns of the agent loop (pkg/workflow/builtin/agent/loop.go): budgets, the
    silent chart recall, the closing event, and what is left in memory. */
module AgentTurn {
  import opened StreamProtocol
  import SS = StreamSession
  import opened Text
  import opened Wrappers
  import opened AgentLoop
  import opened Messages

  function Turn(cfg: Config, w: World, s0: State): (r: Next)
    ensures r.End?
  {
    Run(StepOf(cfg, w), cfg.maxIterations, 0, s0)
  }

  // ---- induction over a turn

  ghost predicate Keeps(step: Stepper, inv: State -> bool, post: Next -> bool) {
    && (forall s | inv(s) :: post(End(s.sent, s.log, Failed(MaxIterations))))
    && (forall k: nat, s: State {:trigger step(k, s)} | inv(s) ::
          if step(k, s).Continue? then inv(step(k, s).state) else post(step(k, s)))
  }

  lemma {:induction false} RunKeeps(step: Stepper, max: nat, iter: nat, s: State, inv: State -> bool, post: Next -> bool)
    requires Keeps(step, inv, post) && inv(s)
    ensures post(Run(step, max, iter, s))
    decreases max - iter
  {
    if iter < max {
      match step(iter, s) {
        case End(_, _, _) =>
        case Continue(t) => RunKeeps(step, max, iter + 1, t, inv, post);
      }
    }
  }

  lemma {:induction false} BeforeKeeps(step: Stepper, s0: State, k: nat, inv: State -> bool, post: Next -> bool)
    requires Keeps(step, inv, post) && inv(s0) && Before(step, s0, k).Some?
    ensures inv(Before(step, s0, k).value)
  {
    if k > 0 {
      BeforeEarlier(step, s0, k - 1, k);
      BeforeKeeps(step, s0, k - 1, inv, post);
    }
  }

  lemma {:induction false} RunFrom(step: Stepper, max: nat, s0: State, k: nat)
    requires k <= max && Before(step, s0, k).Some?
    ensures Run(step, max, 0, s0) == Run(step, max, k, Before(step, s0, k).value)
  {
    if k > 0 {
      BeforeEarlier(step, s0, k - 1, k);
      RunFrom(step, max, s0, k - 1);
    }
  }

  // ---- budgets

  function Count(msgs: seq<Message>, m: Message): nat {
    if msgs == [] then 0 else
    Count(msgs[..|msgs| - 1], m) + if msgs[|msgs| - 1] == m then 1 else 0
  }

  /** How often m was said after the first n messages. */
  function CountFrom(msgs: seq<Message>, n: nat, m: Message): nat
    requires n <= |msgs|
  {
    Count(msgs[n..], m)
  }

  const NUDGED := Says(User, NUDGE)
  const RECALLED := Says(User, RECALL)

  predicate InBudget(cfg: Config, n: nat, s: State) {
    && n <= |s.msgs|
    && CountFrom(s.msgs, n, NUDGED) == s.nudges <= cfg.maxEmptyAnswerRetries
    && CountFrom(s.msgs, n, RECALLED) == (if s.recall.Recalling? then 1 else 0)
    && CapKept(s.log, cfg.maxToolRetries)
    && Quiet(s.sent)
  }

  predicate EndsInBudget(cfg: Config, e: Next) {
    e.End? && CapKept(e.log, cfg.maxToolRetries) && Quiet(e.sent)
  }

  lemma {:induction false} CountAdd(msgs: seq<Message>, last: Message, m: Message)
    ensures Count(msgs + [last], m) == Count(msgs, m) + if last == m then 1 else 0
  {
    assert (msgs + [last])[..|msgs|] == msgs;
  }

  lemma {:induction false} SayCounts(s: State, assistant: seq<Block>, user: Message, n: nat, m: Message)
    requires n <= |s.msgs| && m.role.User?
    ensures CountFrom(Say(s, assistant, user).msgs, n, m) == CountFrom(s.msgs, n, m) + if user == m then 1 else 0
  {
    var a := Message(Assistant, assistant);
    var tail := s.msgs[n..];
    assert Say(s, assistant, user).msgs[n..] == (tail + [a]) + [user];
    CountAdd(tail, a, m);
    CountAdd(tail + [a], user, m);
  }

  lemma {:induction false} NudgeIsNotRecall()
    ensures NUDGED != RECALLED
  {
    assert |NUDGE| != |RECALL|;
    assert NUDGED.content[0].text == NUDGE && RECALLED.content[0].text == RECALL;
  }

  lemma {:induction false} ConcludeInBudget(cfg: Config, w: World, s: State, r: Round, n: nat)
    requires InBudget(cfg, n, s)
    ensures var e := Conclude(cfg, w, s, r);
            if e.Continue? then InBudget(cfg, n, e.state) else EndsInBudget(cfg, e)
  {
    NudgeIsNotRecall();
    var e := Conclude(cfg, w, s, r);
    if e.Continue? {
      var said := e.state.msgs[|s.msgs|].content;
      var user := e.state.msgs[|s.msgs| + 1];
      assert e.state.msgs == Say(s, said, user).msgs;
      SayCounts(s, said, user, n, NUDGED);
      SayCounts(s, said, user, n, RECALLED);
    }
  }

  lemma {:induction false} UseToolsInBudget(cfg: Config, w: World, s: State, r: Round, n: nat)
    requires InBudget(cfg, n, s) && r.calls != []
    ensures var e := UseTools(cfg, w, s, r);
            if e.Continue? then InBudget(cfg, n, e.state) else EndsInBudget(cfg, e)
  {
    ToolsAnswer(w, cfg.maxToolRetries, s.log, r.calls);
    var t := AfterTools(w, cfg.maxToolRetries, s.log, r.calls);
    if !t.stopped {
      assert t.results[0] in t.results;
      var user := Message(User, t.results);
      assert user.content[0] != NUDGED.content[0] && user.content[0] != RECALLED.content[0];
      SayCounts(s, r.blocks, user, n, NUDGED);
      SayCounts(s, r.blocks, user, n, RECALLED);
    }
  }

  lemma {:induction false} StepInBudget(cfg: Config, w: World, k: nat, s: State, n: nat)
    requires InBudget(cfg, n, s)
    ensures var e := Step(cfg, w, k, s);
            if e.Continue? then InBudget(cfg, n, e.state) else EndsInBudget(cfg, e)
  {
    StreamedIsQuiet(w, cfg.surfaceThoughts, Events(w, k, s));
    RespondInBudget(cfg, w, s, RoundAt(w, k, s), Streamed(w, cfg.surfaceThoughts, Events(w, k, s)), n);
  }

  lemma {:induction false} RespondInBudget(cfg: Config, w: World, s: State, r: Round, shown: seq<Event>, n: nat)
    requires InBudget(cfg, n, s) && Quiet(shown)
    ensures var e := Respond(cfg, w, s, r, shown);
            if e.Continue? then InBudget(cfg, n, e.state) else EndsInBudget(cfg, e)
  {
    var u := Emit(s, shown);
    if r.stop == "end_turn" || r.calls == [] {
      ConcludeInBudget(cfg, w, u, r, n);
    } else {
      UseToolsInBudget(cfg, w, u, r, n);
    }
  }

  /** In every turn: before each iteration the nudges said so far are within budget and the chart
      recall was forced at most once; no tool is invoked after failing more than the cap allows, so
      each fails at most cap + 1 times. */
  lemma {:induction false} TurnInBudget(cfg: Config, w: World, s0: State, k: nat, name: string)
    requires s0.nudges == 0 && s0.log == [] && s0.sent == [] && s0.recall.NoRecall?
    ensures var n := |s0.msgs|;
            Before(StepOf(cfg, w), s0, k).Some? ==>
              var s := Before(StepOf(cfg, w), s0, k).value;
              && n <= |s.msgs| && CountFrom(s.msgs, n, NUDGED) <= cfg.maxEmptyAnswerRetries
              && CountFrom(s.msgs, n, RECALLED) <= 1
    ensures CapKept(Turn(cfg, w, s0).log, cfg.maxToolRetries) && Quiet(Turn(cfg, w, s0).sent)
    ensures Failures(Turn(cfg, w, s0).log, name) <= cfg.maxToolRetries + 1
  {
    var n := |s0.msgs|;
    var step := StepOf(cfg, w);
    var inv := (s: State) => InBudget(cfg, n, s);
    var post := (e: Next) => EndsInBudget(cfg, e);
    forall j: nat, s: State | inv(s)
      ensures if step(j, s).Continue? then inv(step(j, s).state) else post(step(j, s))
    {
      StepInBudget(cfg, w, j, s, n);
    }
    assert s0.msgs[n..] == [];
    RunKeeps(step, cfg.maxIterations, 0, s0, inv, post);
    if Before(step, s0, k).Some? {
      BeforeKeeps(step, s0, k, inv, post);
    }
    CapBoundsFailures(Turn(cfg, w, s0).log, cfg.maxToolRetries, name);
  }

  // ---- the forced recall

  ghost predicate IsPatchOf(w: World, kept: string, answer: string) {
    exists charts: seq<ChartRef> :: answer == Patched(w, kept, charts)
  }

  ghost predicate SilentEnd(w: World, s: State, e: Next)
    requires s.recall.Recalling?
  {
    && e.End? && e.sent == s.sent
    && (e.outcome.Completed? ==>
          IsPatchOf(w, s.recall.answer, e.outcome.answer) && e.outcome.message == Says(Assistant, e.outcome.answer))
  }

  lemma {:induction false} SilentStep(cfg: Config, w: World, k: nat, s: State, t: State)
    requires s.recall.Recalling? && t.recall == s.recall && t.sent == s.sent
    ensures var e := Step(cfg, w, k, t);
            if e.Continue? then e.state.recall == s.recall && e.state.sent == s.sent else SilentEnd(w, s, e)
  {
    var e := Step(cfg, w, k, t);
    if e.End? && e.outcome.Completed? {
      assert e.outcome.answer == Patched(w, s.recall.answer, t.charts);
    }
  }

  /** From the recall's start the client is sent nothing more before the closing event, and a
      completed turn answers with what was on screen, only its charts patched. */
  lemma {:induction false} RecallIsSilent(cfg: Config, w: World, s0: State, k: nat)
    requires Before(StepOf(cfg, w), s0, k).Some? && k <= cfg.maxIterations
    requires Before(StepOf(cfg, w), s0, k).value.recall.Recalling?
    ensures SilentEnd(w, Before(StepOf(cfg, w), s0, k).value, Turn(cfg, w, s0))
  {
    var step := StepOf(cfg, w);
    var s := Before(step, s0, k).value;
    var inv := (t: State) => t.recall == s.recall && t.sent == s.sent;
    var post := (e: Next) => SilentEnd(w, s, e);
    forall j: nat, t: State | inv(t)
      ensures if step(j, t).Continue? then inv(step(j, t).state) else post(step(j, t))
    {
      SilentStep(cfg, w, j, s, t);
    }
    RunKeeps(step, cfg.maxIterations, k, s, inv, post);
    RunFrom(step, cfg.maxIterations, s0, k);
  }

  // ---- provider behaviour the loop does not survive

  const WITNESS_USE := ToolUse("t1", "search", "{}")

  /** A provider that calls a tool and reports end_turn in the same response. */
  function EndTurnWithTools(): World {
    World((k: nat, m: seq<Message>) => [Use(WITNESS_USE), Stop("end_turn")], (k: nat) => false,
          (n: string) => true, (n: string) => false, (k: nat, c: ToolUse) => ToolOutcome([], false, "{}"),
          (t: string) => [], (t: string) => [], (t: string, cs: seq<ChartRef>) => "", (p: Payload) => "")
  }

  lemma {:induction false} UseThenEndTurn(c: ToolUse)
    ensures Collected([Use(c), Stop("end_turn")]) == Round([UseBlock(c)], "end_turn", [c], None)
    ensures LastText([UseBlock(c)]) == ""
  {
    var one: seq<LLMEvent> := [Use(c)];
    assert one[..0] == [] && Collected([]) == Round([], "", [], None);
    assert Collected(one) == Round([UseBlock(c)], "", [c], None);
    var both := one + [Stop("end_turn")];
    assert both[..1] == one && both == [Use(c), Stop("end_turn")];
    var blocks: seq<Block> := [UseBlock(c)];
    assert blocks[..0] == [];
  }

  lemma {:induction false} EndTurnIsNudged(cfg: Config, w: World, s: State)
    requires s.recall.NoRecall? && s.nudges < cfg.maxEmptyAnswerRetries && !w.cancelled(0)
    requires RoundAt(w, 0, s).fault.None? && RoundAt(w, 0, s).stop == "end_turn" && LastText(RoundAt(w, 0, s).blocks) == ""
    ensures Step(cfg, w, 0, s).Continue?
  {
  }

  lemma {:induction false} EndTurnWithToolsBreaks(cfg: Config, user: Message)
    requires cfg.maxIterations >= 2 && cfg.maxEmptyAnswerRetries >= 1
    requires user.role.User? && user.content != [] && Uses(user.content) == [] && ResultIds(user.content) == []
    ensures var w, s0 := EndTurnWithTools(), Opening([], user);
            var step := StepOf(cfg, w);
            && Sent(step, cfg.maxIterations, w.cancelled, s0, 1)
            && !WellFormed(Request(step, s0, 1))
  {
    var w, s0 := EndTurnWithTools(), Opening([], user);
    UseThenEndTurn(WITNESS_USE);
    EndTurnIsNudged(cfg, w, s0);
    OpeningIsLegal([], user);
    StepLegal(cfg, w, 0, s0);
    assert Before(StepOf(cfg, w), s0, 1) == Some(Step(cfg, w, 0, s0).state);
  }

  /** A provider that never writes anything. */
  function Silent(): World {
    World((k: nat, m: seq<Message>) => [], (k: nat) => false,
          (n: string) => true, (n: string) => false, (k: nat, c: ToolUse) => ToolOutcome([], false, "{}"),
          (t: string) => [], (t: string) => [], (t: string, cs: seq<ChartRef>) => "", (p: Payload) => "")
  }

  /** Once the nudges are used up the turn completes with an empty message. */
  lemma {:induction false} SilentRun(cfg: Config, iter: nat, s: State)
    requires s.nudges <= cfg.maxEmptyAnswerRetries && s.recall.NoRecall? && s.charts == [] && s.sent == []
    requires cfg.maxIterations - iter > cfg.maxEmptyAnswerRetries - s.nudges
    ensures Run(StepOf(cfg, Silent()), cfg.maxIterations, iter, s) ==
            End([], s.log, Completed("", "", Message(Assistant, [])))
    decreases cfg.maxEmptyAnswerRetries - s.nudges
  {
    var w := Silent();
    assert Collected([]) == Round([], "", [], None) && Streamed(w, cfg.surfaceThoughts, []) == [];
    var e := Step(cfg, w, iter, s);
    if s.nudges < cfg.maxEmptyAnswerRetries {
      SilentRun(cfg, iter + 1, e.state);
    } else {
      assert Missing([], s.charts) == [] && Dropped([], []) == [];
    }
  }

  // ---- memory

  /** What memory keeps of the assistant's message. */
  function TextOnly(blocks: seq<Block>): seq<Block> {
    if blocks == [] then [] else
    var b := blocks[|blocks| - 1];
    TextOnly(blocks[..|blocks| - 1]) + if b.TextBlock? then [b] else []
  }

  function MediaRefs(blocks: seq<Block>): seq<string> {
    if blocks == [] then [] else
    var b := blocks[|blocks| - 1];
    MediaRefs(blocks[..|blocks| - 1]) + if b.MediaBlock? then [b.ref] else []
  }

  /** What memory keeps of the user's message: one line per attachment, then the text. */
  function ForMemory(blocks: seq<Block>): seq<Block> {
    var refs := MediaRefs(blocks);
    (if refs == [] then [] else [TextBlock(Join("\n", refs))]) + TextOnly(blocks)
  }

  predicate HasText(blocks: seq<Block>) { exists b | b in blocks :: b.TextBlock? }

  lemma {:induction false} TextOnlyHolds(blocks: seq<Block>)
    ensures forall b | b in TextOnly(blocks) :: b.TextBlock?
    ensures TextOnly(blocks) != [] <==> HasText(blocks)
    ensures !HasText(blocks) ==> LastText(blocks) == ""
  {
    if blocks != [] {
      var head, last := blocks[..|blocks| - 1], blocks[|blocks| - 1];
      assert blocks == head + [last];
      TextOnlyHolds(head);
      HasTextAdd(head, last);
      if last.TextBlock? {
        assert TextOnly(blocks) == TextOnly(head) + [last];
      } else {
        assert TextOnly(blocks) == TextOnly(head) && LastText(blocks) == LastText(head);
      }
    }
  }

  lemma {:induction false} HasTextAdd(blocks: seq<Block>, b: Block)
    ensures HasText(blocks + [b]) <==> HasText(blocks) || b.TextBlock?
  {
    var all := blocks + [b];
    assert forall c | c in blocks :: c in all;
    assert all[|blocks|] == b && b in all;
  }

  lemma {:induction false} OnlyTextHasNoTools(blocks: seq<Block>)
    requires forall b | b in blocks :: b.TextBlock?
    ensures Uses(blocks) == [] && ResultIds(blocks) == []
  {
    if blocks != [] {
      assert blocks[|blocks| - 1] in blocks;
      OnlyTextHasNoTools(blocks[..|blocks| - 1]);
    }
  }

  predicate HasDelta(events: seq<LLMEvent>) { exists e | e in events :: e.TextDelta? }

  lemma {:induction false} HasDeltaAdd(events: seq<LLMEvent>, e: LLMEvent)
    ensures HasDelta(events + [e]) <==> HasDelta(events) || e.TextDelta?
  {
    var all := events + [e];
    assert forall c | c in events :: c in all;
    assert all[|events|] == e && e in all;
  }

  lemma {:induction false} TextBlocksCome(events: seq<LLMEvent>)
    ensures HasText(Collected(events).blocks) <==> HasDelta(events)
  {
    if events != [] {
      var head, e := events[..|events| - 1], events[|events| - 1];
      assert events == head + [e];
      TextBlocksCome(head);
      HasDeltaAdd(head, e);
      var r := Collected(head);
      if e.TextDelta? {
        var blocks := Collected(events).blocks;
        assert blocks[|blocks| - 1].TextBlock?;
      } else if e.Use? {
        HasTextAdd(r.blocks, UseBlock(e.call));
      }
    }
  }

  /** The message a completed turn leaves to memory is empty exactly when the last response had no
      text, no chart was produced, and no recall kept an earlier answer. */
  lemma {:induction false} StoredEmptyIff(cfg: Config, w: World, k: nat, s: State)
    requires w.Sane() && Step(cfg, w, k, s).End? && Step(cfg, w, k, s).outcome.Completed?
    ensures TextOnly(Step(cfg, w, k, s).outcome.message.content) == [] <==>
              s.recall.NoRecall? && s.charts == [] && !HasDelta(Events(w, k, s))
  {
    TextBlocksCome(Events(w, k, s));
    ConcludeStores(cfg, w, Emit(s, Streamed(w, cfg.surfaceThoughts, Events(w, k, s))), RoundAt(w, k, s));
  }

  lemma {:induction false} ConcludeStores(cfg: Config, w: World, s: State, r: Round)
    requires w.Sane()
    ensures var e := Conclude(cfg, w, s, r);
            e.End? && e.outcome.Completed? ==>
              (TextOnly(e.outcome.message.content) == [] <==> s.recall.NoRecall? && s.charts == [] && !HasText(r.blocks))
  {
    var e := Conclude(cfg, w, s, r);
    if e.End? {
      var content := e.outcome.message.content;
      TextOnlyHolds(r.blocks);
      TextOnlyHolds(content);
      assert content == [TextBlock(e.outcome.answer)] ==> content[0].TextBlock?;
      if s.recall.NoRecall? && !HasText(r.blocks) {
        assert LastText(r.blocks) == "" && w.correct("", s.charts) == "" && w.keys("") == [];
        AllDropped(s.charts);
      }
    }
  }

  lemma {:induction false} AllDropped(charts: seq<ChartRef>)
    ensures Dropped(charts, []) == [] <==> charts == []
    ensures forall p | p in Dropped(charts, []) :: p != ""
    ensures charts != [] ==> Join(PARAGRAPH, Dropped(charts, [])) != ""
  {
    if charts != [] {
      AllDropped(charts[..|charts| - 1]);
    }
  }

  /** A stored turn leaves the next turn a good history exactly when its assistant part is not
      empty; the user part always is good. */
  lemma {:induction false} NextHistory(history: seq<Message>, user: seq<Block>, assistant: seq<Block>)
    requires HistoryOk(history)
    requires HasText(user)
    ensures HistoryOk(history + [Message(User, ForMemory(user)), Message(Assistant, TextOnly(assistant))])
            <==> TextOnly(assistant) != []
  {
    TextOnlyHolds(user);
    TextOnlyHolds(assistant);
    OnlyTextHasNoTools(ForMemory(user));
    OnlyTextHasNoTools(TextOnly(assistant));
    ExchangeIsGood(history, Message(User, ForMemory(user)), Message(Assistant, TextOnly(assistant)));
  }

  /** Iteration k is the turn's last and ends it. */
  predicate EndsAt(step: Stepper, max: nat, s0: State, k: nat) {
    k < max && Before(step, s0, k).Some? && step(k, Before(step, s0, k).value).End?
  }

  lemma {:induction false} EndsMeans(step: Stepper, max: nat, s0: State, k: nat)
    requires EndsAt(step, max, s0, k)
    ensures Run(step, max, 0, s0) == step(k, Before(step, s0, k).value)
  {
    RunFrom(step, max, s0, k);
  }

  lemma {:induction false} EndsSomewhere(step: Stepper, max: nat, s0: State, from: nat) returns (k: nat)
    requires from <= max && Before(step, s0, from).Some? && Run(step, max, 0, s0).outcome.Completed?
    ensures EndsAt(step, max, s0, k)
    decreases max - from
  {
    RunFrom(step, max, s0, from);
    if step(from, Before(step, s0, from).value).End? {
      k := from;
    } else {
      k := EndsSomewhere(step, max, s0, from + 1);
    }
  }

  /** Nothing to store after iteration k: no recall keeps an answer, no chart was produced, and the
      response has no text. */
  predicate SaidNothing(cfg: Config, w: World, s0: State, k: nat)
    requires Before(StepOf(cfg, w), s0, k).Some?
  {
    var s := Before(StepOf(cfg, w), s0, k).value;
    s.recall.NoRecall? && s.charts == [] && !HasDelta(Events(w, k, s))
  }

  /** The history a completed and stored turn leaves behind. */
  function Extended(history: seq<Message>, user: Message, o: Outcome): seq<Message>
    requires o.Completed?
  {
    history + [Message(User, ForMemory(user.content)), Message(Assistant, TextOnly(o.message.content))]
  }

  /** A whole turn leaves a good history exactly when its last iteration had something to say. */
  lemma {:induction false} StoredTurnIsGoodIff(cfg: Config, w: World, history: seq<Message>, user: Message)
    requires w.Sane() && HistoryOk(history) && HasText(user.content)
    requires Turn(cfg, w, Opening(history, user)).outcome.Completed?
    ensures exists k :: EndsAt(StepOf(cfg, w), cfg.maxIterations, Opening(history, user), k)
    ensures forall k | EndsAt(StepOf(cfg, w), cfg.maxIterations, Opening(history, user), k) ::
              HistoryOk(Extended(history, user, Turn(cfg, w, Opening(history, user)).outcome))
              <==> !SaidNothing(cfg, w, Opening(history, user), k)
  {
    var step, s0 := StepOf(cfg, w), Opening(history, user);
    var o := Turn(cfg, w, s0).outcome;
    var last := EndsSomewhere(step, cfg.maxIterations, s0, 0);
    NextHistory(history, user.content, o.message.content);
    forall k | EndsAt(step, cfg.maxIterations, s0, k)
      ensures HistoryOk(Extended(history, user, o)) <==> !SaidNothing(cfg, w, s0, k)
    {
      EndsMeans(step, cfg.maxIterations, s0, k);
      StoredEmptyIff(cfg, w, k, Before(step, s0, k).value);
    }
  }

  lemma {:induction false} ExchangeIsGood(history: seq<Message>, u: Message, a: Message)
    requires HistoryOk(history) && u.role.User? && a.role.Assistant? && u.content != []
    requires Uses(u.content) == [] && ResultIds(u.content) == [] && Uses(a.content) == [] && ResultIds(a.content) == []
    ensures HistoryOk(history + [u, a]) <==> a.content != []
  {
    SilentMessage(u);
    SilentMessage(a);
    ExchangeBy(Asks(), Replies(), history, u, a);
  }

  lemma {:induction false} SilentMessage(m: Message)
    requires Uses(m.content) == [] && ResultIds(m.content) == []
    ensures Asks()(m) == [] && Replies()(m) == []
  {
    NonEmptyIds([]);
  }

  lemma {:induction false} ExchangeBy(asks: Reader, answers: Reader, history: seq<Message>, u: Message, a: Message)
    requires HistoryOkBy(asks, answers, history) && u.role.User? && a.role.Assistant? && u.content != []
    requires asks(u) == [] && answers(u) == [] && asks(a) == [] && answers(a) == []
    ensures HistoryOkBy(asks, answers, history + [u, a]) <==> a.content != []
  {
    LinkedAdd(asks, answers, history, u);
    LinkedAdd(asks, answers, history + [u], a);
    assert history + [u] + [a] == history + [u, a];
  }

  // ---- the closing event

  /** messageStopOf. */
  function MessageStop(stop: string): string {
    if stop == "" || stop == "tool_use" then "end_turn" else stop
  }

  function Closing(w: World, o: Outcome): Event {
    match o
    case Completed(answer, stop, _) => Event(Kind.Complete, w.json(CompletePayload(answer, MessageStop(stop))))
    case Failed(code) => Event(Kind.Error, w.json(ErrorPayload(code)))
  }

  /** The turn's calls on its sink: everything sent, then one close. */
  function SinkCalls(w: World, sent: seq<Event>, o: Outcome): seq<SS.SinkCall> {
    seq(|sent|, i requires 0 <= i < |sent| => SS.Sent(sent[i])) + [SS.Closed(Closing(w, o))]
  }

  /** Whatever the executor and the trigger add, the client of a turn sees one start, the turn's own
      events in order, and the turn's own close as the only terminator. */
  lemma {:induction false} TurnOnTheWire(cfg: Config, w: World, s0: State, start: string, o: Outcome, agentErr: Option<string>, emitErr: Option<string>)
    requires s0.nudges == 0 && s0.log == [] && s0.sent == [] && s0.recall.NoRecall?
    ensures var session := SS.AfterCalls(SS.OPEN, [SS.StartCall(start)] + SS.LayeredCalls(SinkCalls(w, Turn(cfg, w, s0).sent, o), agentErr, emitErr));
            var last := match o
                        case Completed(answer, stop, _) =>
                          Event(Kind.Complete, w.json(CompletePayload(answer, if stop in {"", "tool_use"} then "end_turn" else stop)))
                        case Failed(code) => Event(Kind.Error, w.json(ErrorPayload(code)));
            var events := [Event(Kind.Start, start)] + Turn(cfg, w, s0).sent + [last];
            session.closed && session.wire == SS.Numbered(events) && CompleteStream(events)
  {
    TurnInBudget(cfg, w, s0, 0, "");
    QuietOnTheWire(start, Turn(cfg, w, s0).sent, Closing(w, o), agentErr, emitErr);
  }

  lemma {:induction false} QuietOnTheWire(start: string, sent: seq<Event>, term: Event, agentErr: Option<string>, emitErr: Option<string>)
    requires Quiet(sent) && term.Terminates()
    ensures var calls := seq(|sent|, i requires 0 <= i < |sent| => SS.Sent(sent[i])) + [SS.Closed(term)];
            var session := SS.AfterCalls(SS.OPEN, [SS.StartCall(start)] + SS.LayeredCalls(calls, agentErr, emitErr));
            var events := [Event(Kind.Start, start)] + sent + [term];
            session.closed && session.wire == SS.Numbered(events) && CompleteStream(events)
  {
    var quiet := seq(|sent|, i requires 0 <= i < |sent| => SS.Sent(sent[i]));
    SS.AgentTerminatorWins(start, quiet, term, agentErr, emitErr);
    SentBack(sent);
  }

  lemma {:induction false} SentBack(sent: seq<Event>)
    ensures SS.SentEvents(seq(|sent|, i requires 0 <= i < |sent| => SS.Sent(sent[i]))) == sent
  {
    if sent != [] {
      var n := |sent| - 1;
      SentBack(sent[..n]);
      assert seq(|sent|, i requires 0 <= i < |sent| => SS.Sent(sent[i]))[..n] == seq(n, i requires 0 <= i < n => SS.Sent(sent[..n][i]));
    }
  }
}
