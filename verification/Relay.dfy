/** One consult: the engine's stream relayed onto a nats-agent stream
    (pkg/rsassistant/relay.go and consult.go), on decoded event payloads. */
module Relay {
  import opened Text
  import opened Wrappers

  /** A decoded engine event. url is the url or imageUrl text of an attachment, empty when none. */
  datatype Engine =
    | Start
    | Delta(text: string)
    | Thought(text: string)
    | ToolCall(id: string, name: string)
    | ToolResult(id: string, output: string, isError: bool)
    | Attachment(payload: string, url: string)
    | Complete(finalText: string, messageStop: string)
    | Error(code: string, message: string)
  {
    predicate Terminates() { Complete? || Error? }
  }

  /** A call on the nats-agent stream. */
  datatype Emit =
    | Text(s: string)
    | ToolUse(id: string, name: string)
    | Result(id: string, name: string, output: string, error: string)
    | Data(payload: string)
    | Status(s: string)
    | Done(stop: string)
    | Failed(message: string)
  {
    predicate Ends() { Done? || Failed? }
  }

  function MapStop(messageStop: string): string {
    if messageStop == "max_tokens" then "maxTokens" else "endTurn"
  }

  function ErrorText(code: string, message: string): string {
    var m := TrimSpace(code + ": " + message);
    if m == ":" then "workflow error" else m
  }

  // ---- what one event means after the events before it

  /** Some text has been shown. */
  predicate SawDelta(history: seq<Engine>) {
    exists e | e in history :: e.Delta? && e.text != ""
  }

  /** The name the latest tool call gave this id; a tool result itself carries none. */
  function ToolName(history: seq<Engine>, id: string): string {
    if history == [] then "" else
    var e := history[|history| - 1];
    if e.ToolCall? && e.id == id then e.name else ToolName(history[..|history| - 1], id)
  }

  function Emitted(history: seq<Engine>, e: Engine): seq<Emit> {
    match e
    case Start => []
    case Delta(t) => if t == "" then [] else [Text(t)]
    case Thought(t) => if t == "" then [] else [Status(t)]
    case ToolCall(id, name) => [ToolUse(id, name)]
    case ToolResult(id, output, isError) => [Result(id, ToolName(history, id), output, if isError then output else "")]
    case Attachment(p, url) => [Data(p)] + if url == "" then [] else [Text("\n" + url + "\n")]
    case Complete(text, stop) =>
      (if !SawDelta(history) && text != "" then [Text(text)] else []) + [Done(MapStop(stop))]
    case Error(code, message) => [Failed(ErrorText(code, message))]
  }

  /** Everything a run of events makes the relay emit. */
  function Relayed(events: seq<Engine>): seq<Emit> {
    if events == [] then [] else
    var head, e := events[..|events| - 1], events[|events| - 1];
    Relayed(head) + Emitted(head, e)
  }

  /** At most the last event is a terminator. */
  predicate OneEnd(events: seq<Engine>) {
    forall i | 0 <= i < |events| - 1 :: !events[i].Terminates()
  }

  predicate Ended(events: seq<Engine>) {
    |events| > 0 && events[|events| - 1].Terminates()
  }

  ghost predicate NamesOf(names: map<string, string>, history: seq<Engine>) {
    forall id :: (if id in names then names[id] else "") == ToolName(history, id)
  }

  lemma {:induction false} NamesAfter(names: map<string, string>, before: seq<Engine>, e: Engine)
    requires NamesOf(names, before)
    ensures NamesOf(if e.ToolCall? then names[e.id := e.name] else names, before + [e])
  {
    assert (before + [e])[..|before|] == before;
    var after := if e.ToolCall? then names[e.id := e.name] else names;
    forall id ensures (if id in after then after[id] else "") == ToolName(before + [e], id) {
      assert (if id in names then names[id] else "") == ToolName(before, id);
    }
  }

  lemma {:induction false} SawAfter(before: seq<Engine>, e: Engine)
    ensures SawDelta(before + [e]) == (SawDelta(before) || (e.Delta? && e.text != ""))
  {
    assert forall x :: x in before + [e] <==> x in before || x == e;
  }

  /** These fields stand for the events. */
  ghost predicate Stands(names: map<string, string>, saw: bool, done: bool, n: nat, out: seq<Emit>, events: seq<Engine>) {
    && NamesOf(names, events)
    && saw == SawDelta(events)
    && OneEnd(events) && done == Ended(events)
    && n == |events|
    && out == Relayed(events)
  }

  lemma {:induction false} StandsAfter(names: map<string, string>, saw: bool, n: nat, out: seq<Emit>, events: seq<Engine>, e: Engine)
    requires Stands(names, saw, false, n, out, events)
    ensures Stands(if e.ToolCall? then names[e.id := e.name] else names, saw || (e.Delta? && e.text != ""), e.Terminates(),
                   n + 1, out + Emitted(events, e), events + [e])
  {
    NamesAfter(names, events, e);
    SawAfter(events, e);
    assert (events + [e])[..|events|] == events;
  }

  // ---- what each kind of call carries, over whole streams

  function Flat<T, R>(f: T -> seq<R>, items: seq<T>): seq<R> {
    if items == [] then [] else Flat(f, items[..|items| - 1]) + f(items[|items| - 1])
  }

  lemma {:induction false} FlatSum<T, R>(f: T -> seq<R>, a: seq<T>, b: seq<T>)
    ensures Flat(f, a + b) == Flat(f, a) + Flat(f, b)
  {
    if b == [] {
      assert a + b == a;
    } else {
      FlatSum(f, a, b[..|b| - 1]);
      assert (a + b)[..|a + b| - 1] == a + b[..|b| - 1];
    }
  }

  /** Whatever the events before, e's calls carry g(e). */
  ghost predicate Carries<R>(f: Emit -> seq<R>, g: Engine -> seq<R>, e: Engine) {
    forall history :: Flat(f, Emitted(history, e)) == g(e)
  }

  lemma {:induction false} RelayedCarries<R>(f: Emit -> seq<R>, g: Engine -> seq<R>, events: seq<Engine>)
    requires forall e | e in events :: Carries(f, g, e)
    ensures Flat(f, Relayed(events)) == Flat(g, events)
  {
    if events != [] {
      var head, e := events[..|events| - 1], events[|events| - 1];
      RelayedCarries(f, g, head);
      FlatSum(f, Relayed(head), Emitted(head, e));
      assert Carries(f, g, e);
    }
  }

  function StatusText(): Emit -> seq<string> { (c: Emit) => if c.Status? then [c.s] else [] }

  function ThoughtText(): Engine -> seq<string> { (e: Engine) => if e.Thought? && e.text != "" then [e.text] else [] }

  function UseOf(): Emit -> seq<(string, string)> { (c: Emit) => if c.ToolUse? then [(c.id, c.name)] else [] }

  function CallOf(): Engine -> seq<(string, string)> { (e: Engine) => if e.ToolCall? then [(e.id, e.name)] else [] }

  /** A result's id, output and error text. */
  function ResultOf(): Emit -> seq<(string, string, string)> { (c: Emit) => if c.Result? then [(c.id, c.output, c.error)] else [] }

  function OutputOf(): Engine -> seq<(string, string, string)> {
    (e: Engine) => if e.ToolResult? then [(e.id, e.output, if e.isError then e.output else "")] else []
  }

  function DataOf(): Emit -> seq<string> { (c: Emit) => if c.Data? then [c.payload] else [] }

  function PayloadOf(): Engine -> seq<string> { (e: Engine) => if e.Attachment? then [e.payload] else [] }

  function TextOf(): Emit -> string { (c: Emit) => if c.Text? then c.s else "" }

  /** Text as it streams: deltas, and attachments' links on lines of their own. */
  function StreamedText(): Engine -> string {
    (e: Engine) => if e.Delta? then e.text else if e.Attachment? && e.url != "" then "\n" + e.url + "\n" else ""
  }

  function DeltaText(): Engine -> string { (e: Engine) => if e.Delta? then e.text else "" }

  lemma {:induction false} FlatOne<T, R>(f: T -> seq<R>, x: T)
    ensures Flat(f, [x]) == f(x)
  {
    assert [x][..0] == [];
  }

  lemma {:induction false} FlatFew<T, R>(f: T -> seq<R>, items: seq<T>)
    requires |items| <= 2
    ensures Flat(f, items) == (if |items| > 0 then f(items[0]) else []) + if |items| > 1 then f(items[1]) else []
  {
    if |items| == 1 {
      assert items == [items[0]];
      FlatOne(f, items[0]);
    } else if |items| == 2 {
      assert items == [items[0]] + [items[1]];
      FlatSum(f, [items[0]], [items[1]]);
      FlatOne(f, items[0]);
      FlatOne(f, items[1]);
    }
  }

  lemma {:induction false} CarriesStatus(e: Engine)
    ensures Carries(StatusText(), ThoughtText(), e)
  {
    forall history ensures Flat(StatusText(), Emitted(history, e)) == ThoughtText()(e) {
      FlatFew(StatusText(), Emitted(history, e));
    }
  }

  lemma {:induction false} CarriesUse(e: Engine)
    ensures Carries(UseOf(), CallOf(), e)
  {
    forall history ensures Flat(UseOf(), Emitted(history, e)) == CallOf()(e) {
      FlatFew(UseOf(), Emitted(history, e));
    }
  }

  lemma {:induction false} CarriesResult(e: Engine)
    ensures Carries(ResultOf(), OutputOf(), e)
  {
    forall history ensures Flat(ResultOf(), Emitted(history, e)) == OutputOf()(e) {
      FlatFew(ResultOf(), Emitted(history, e));
    }
  }

  lemma {:induction false} CarriesData(e: Engine)
    ensures Carries(DataOf(), PayloadOf(), e)
  {
    forall history ensures Flat(DataOf(), Emitted(history, e)) == PayloadOf()(e) {
      FlatFew(DataOf(), Emitted(history, e));
    }
  }

  /** Thoughts become status lines, tool calls tool uses, results results with their error text, and
      attachments data: each kind in the order of the stream, none left out or added. */
  lemma {:induction false} RelayedMeans(events: seq<Engine>)
    ensures Flat(StatusText(), Relayed(events)) == Flat(ThoughtText(), events)
    ensures Flat(UseOf(), Relayed(events)) == Flat(CallOf(), events)
    ensures Flat(ResultOf(), Relayed(events)) == Flat(OutputOf(), events)
    ensures Flat(DataOf(), Relayed(events)) == Flat(PayloadOf(), events)
  {
    forall e ensures Carries(StatusText(), ThoughtText(), e) {
      CarriesStatus(e);
    }
    forall e ensures Carries(UseOf(), CallOf(), e) {
      CarriesUse(e);
    }
    forall e ensures Carries(ResultOf(), OutputOf(), e) {
      CarriesResult(e);
    }
    forall e ensures Carries(DataOf(), PayloadOf(), e) {
      CarriesData(e);
    }
    RelayedCarries(StatusText(), ThoughtText(), events);
    RelayedCarries(UseOf(), CallOf(), events);
    RelayedCarries(ResultOf(), OutputOf(), events);
    RelayedCarries(DataOf(), PayloadOf(), events);
  }

  lemma {:induction false} LatestName(history: seq<Engine>, j: nat, id: string)
    requires j < |history| && history[j].ToolCall? && history[j].id == id
    requires forall k | j < k < |history| :: !(history[k].ToolCall? && history[k].id == id)
    ensures ToolName(history, id) == history[j].name
  {
    if j < |history| - 1 {
      LatestName(history[..|history| - 1], j, id);
    }
  }

  lemma {:induction false} RelayedHas(events: seq<Engine>, i: nat, c: Emit)
    requires i < |events| && c in Emitted(events[..i], events[i])
    ensures c in Relayed(events)
  {
    if i < |events| - 1 {
      assert events[..|events| - 1][..i] == events[..i];
      RelayedHas(events[..|events| - 1], i, c);
    }
  }

  /** Every result is relayed under the name of the latest call of its id. */
  lemma {:induction false} ResultNamed(events: seq<Engine>, j: nat, i: nat)
    requires j < i < |events| && events[i].ToolResult? && events[j].ToolCall? && events[j].id == events[i].id
    requires forall k | j < k < i :: !(events[k].ToolCall? && events[k].id == events[i].id)
    ensures Result(events[i].id, events[j].name, events[i].output, if events[i].isError then events[i].output else "") in Relayed(events)
  {
    LatestName(events[..i], j, events[i].id);
    var c := Result(events[i].id, events[j].name, events[i].output, if events[i].isError then events[i].output else "");
    assert Emitted(events[..i], events[i]) == [c];
    RelayedHas(events, i, c);
  }

  lemma {:induction false} SawMeans(history: seq<Engine>)
    ensures SawDelta(history) <==> Flat(DeltaText(), history) != ""
  {
    if history != [] {
      var head, e := history[..|history| - 1], history[|history| - 1];
      assert history == head + [e];
      SawMeans(head);
      SawAfter(head, e);
    }
  }

  lemma {:induction false} CarriesText(e: Engine)
    requires !e.Complete?
    ensures Carries(TextOf(), StreamedText(), e)
  {
    forall history ensures Flat(TextOf(), Emitted(history, e)) == StreamedText()(e) {
      FlatFew(TextOf(), Emitted(history, e));
    }
  }

  lemma {:induction false} FinalShows(history: seq<Engine>, e: Engine)
    requires e.Complete?
    ensures Flat(TextOf(), Emitted(history, e)) == if Flat(DeltaText(), history) == "" then e.finalText else ""
  {
    FlatFew(TextOf(), Emitted(history, e));
    SawMeans(history);
  }

  /** The text of the answer: what was streamed or, when no delta had any text, the final text too. */
  function AnswerText(events: seq<Engine>): string {
    if !Ended(events) || !events[|events| - 1].Complete? then Flat(StreamedText(), events)
    else
      var head := events[..|events| - 1];
      Flat(StreamedText(), head) + if Flat(DeltaText(), head) == "" then events[|events| - 1].finalText else ""
  }

  lemma {:induction false} StreamShown(events: seq<Engine>)
    requires forall e | e in events :: !e.Complete?
    ensures Flat(TextOf(), Relayed(events)) == Flat(StreamedText(), events)
  {
    forall e | e in events ensures Carries(TextOf(), StreamedText(), e) {
      CarriesText(e);
    }
    RelayedCarries(TextOf(), StreamedText(), events);
  }

  lemma {:induction false} NotComplete(events: seq<Engine>)
    requires OneEnd(events)
    ensures events != [] ==> forall e | e in events[..|events| - 1] :: !e.Complete?
    ensures !Ended(events) ==> forall e | e in events :: !e.Complete?
  {
    forall e | e in events && events != [] && (e in events[..|events| - 1] || !Ended(events)) ensures !e.Complete? {
      var i :| 0 <= i < |events| && events[i] == e && (i < |events| - 1 || !Ended(events));
    }
  }

  /** The text shown is just that, so an answer that was streamed is never repeated. */
  lemma {:induction false} AnswerShownOnce(events: seq<Engine>)
    requires OneEnd(events)
    ensures Flat(TextOf(), Relayed(events)) == AnswerText(events)
  {
    NotComplete(events);
    if Ended(events) && events[|events| - 1].Complete? {
      var head, e := events[..|events| - 1], events[|events| - 1];
      StreamShown(head);
      FlatSum(TextOf(), Relayed(head), Emitted(head, e));
      FinalShows(head, e);
    } else {
      assert events != [] && Ended(events) ==> events == events[..|events| - 1] + [events[|events| - 1]];
      StreamShown(events);
    }
  }

  /** The last call names the outcome. */
  lemma {:induction false} LastCallIsOutcome(events: seq<Engine>)
    requires Ended(events)
    ensures var out, e := Relayed(events), events[|events| - 1];
            && |out| > 0
            && (e.Complete? ==> out[|out| - 1] == Done(if e.messageStop == "max_tokens" then "maxTokens" else "endTurn"))
            && (e.Error? && IsBlank(e.code + e.message) ==> out[|out| - 1] == Failed("workflow error"))
            && (e.Error? && e.code != "" && !IsSpace(e.code[0]) && e.message != "" && !IsSpace(e.message[|e.message| - 1]) ==>
                  out[|out| - 1] == Failed(e.code + ": " + e.message))
            && (e.Error? ==> out[|out| - 1].Failed?)
  {
    var e := events[|events| - 1];
    if e.Error? && IsBlank(e.code + e.message) {
      BlankAround(e.code, e.message);
    }
  }

  /** Between blanks a colon is all that is left. */
  lemma {:induction false} BlankAround(a: string, b: string)
    requires IsBlank(a + b)
    ensures TrimSpace(a + ": " + b) == ":"
  {
    ColonLeft(a, " " + b);
    assert a + ": " + b == a + ":" + (" " + b);
  }

  lemma {:induction false} ColonLeft(a: string, b: string)
    requires IsBlank(a) && IsBlank(b)
    ensures TrimSpace(a + ":" + b) == ":"
    decreases |a| + |b|
  {
    var s := a + ":" + b;
    if a != "" {
      ColonLeft(a[1..], b);
      assert s[0] in a && s[1..] == a[1..] + ":" + b;
    } else if b != "" {
      ColonLeft(a, b[..|b| - 1]);
      assert s[|s| - 1] in b && s[..|s| - 1] == a + ":" + b[..|b| - 1];
    } else {
      assert s == ":";
    }
  }

  class Relay {
    var toolNames: map<string, string>
    var sawDelta: bool
    var done: bool
    var n: nat
    var out: seq<Emit>
    ghost var events: seq<Engine>

    /** The fields stand for the events applied so far. */
    ghost predicate Valid()
      reads this
    {
      Stands(toolNames, sawDelta, done, n, out, events)
    }

    constructor ()
      ensures Valid() && events == [] && fresh(this)
    {
      toolNames, sawDelta, done, n, out, events := map[], false, false, 0, [], [];
    }

    /** The emitter calls for one more event, from the fields alone. */
    method Output(e: Engine) returns (emitted: seq<Emit>)
      requires Valid()
      ensures emitted == Emitted(events, e)
    {
      emitted := [];
      match e {
        case Start =>
        case Delta(t) =>
          if t != "" {
            emitted := [Text(t)];
          }
        case Thought(t) =>
          if t != "" {
            emitted := [Status(t)];
          }
        case ToolCall(id, name) =>
          emitted := [ToolUse(id, name)];
        case ToolResult(id, output, isError) =>
          var name := if id in toolNames then toolNames[id] else "";
          emitted := [Result(id, name, output, if isError then output else "")];
        case Attachment(p, url) =>
          emitted := [Data(p)];
          if url != "" {
            emitted := emitted + [Text("\n" + url + "\n")];
          }
        case Complete(text, stop) =>
          if !sawDelta && text != "" {
            emitted := [Text(text)];
          }
          emitted := emitted + [Done(MapStop(stop))];
        case Error(code, message) =>
          emitted := [Failed(ErrorText(code, message))];
      }
    }

    method Apply(e: Engine)
      requires Valid()
      modifies this
      ensures Valid() && events == old(events) + if old(done) then [] else [e]
    {
      if done {
        return;
      }
      StandsAfter(toolNames, sawDelta, n, out, events, e);
      var emitted := Output(e);
      toolNames, sawDelta := if e.ToolCall? then toolNames[e.id := e.name] else toolNames, sawDelta || (e.Delta? && e.text != "");
      done, n, out, events := e.Terminates(), n + 1, out + emitted, events + [e];
    }
  }

  method TakeNext(r: Relay, events: seq<Engine>, i: nat)
    requires i < |events| && r.Valid() && r.events == events[..i] && !r.done
    modifies r
    ensures r.Valid() && r.events == events[..i + 1]
  {
    r.Apply(events[i]);
    assert events[..i + 1] == events[..i] + [events[i]];
  }

  /** The message finish adds when the channel closed without a terminator. */
  function EndedText(streamErr: Option<string>): string {
    "workflow stream ended without completion" + if streamErr.Some? then ": " + streamErr.value else ""
  }

  /** The select loop. events is what the stream's channel carries until it closes; before each
      receive the context may turn out to be cancelled, and cancelAt says where, if anywhere. */
  method Consult(events: seq<Engine>, cancelAt: Option<nat>, streamErr: Option<string>)
    returns (out: seq<Emit>, count: nat, cancelled: bool)
    ensures count <= |events| && OneEnd(events[..count])
    ensures cancelled <==> cancelAt == Some(count) && !Ended(events[..count])
    ensures cancelled || Ended(events[..count]) ==> out == Relayed(events[..count])
    ensures !cancelled && !Ended(events[..count]) ==>
              count == |events| && out == Relayed(events) + [Failed(EndedText(streamErr))]
  {
    var r := new Relay();
    var i := 0;
    while true
      invariant 0 <= i <= |events| && fresh(r)
      invariant r.Valid() && r.events == events[..i] && !r.done
      invariant cancelAt.Some? ==> cancelAt.value >= i
      decreases |events| - i
    {
      if cancelAt == Some(i) {
        return r.out, r.n, true;
      }
      if i == |events| {
        assert events[..i] == events;
        return r.out + [Failed(EndedText(streamErr))], r.n, false;
      }
      TakeNext(r, events, i);
      i := i + 1;
      if r.done {
        return r.out, r.n, false;
      }
    }
  }

  /** Exactly one Done or Error call, and it is the last. */
  predicate EndsOnce(out: seq<Emit>) {
    |out| > 0 && out[|out| - 1].Ends() && forall i | 0 <= i < |out| - 1 :: !out[i].Ends()
  }

  predicate NoEnd(out: seq<Emit>) {
    forall i | 0 <= i < |out| :: !out[i].Ends()
  }

  lemma {:induction false} EmittedEnds(history: seq<Engine>, e: Engine)
    ensures if e.Terminates() then EndsOnce(Emitted(history, e)) else NoEnd(Emitted(history, e))
  {
  }

  lemma {:induction false} RelayedEnds(events: seq<Engine>)
    requires OneEnd(events)
    ensures if Ended(events) then EndsOnce(Relayed(events)) else NoEnd(Relayed(events))
  {
    if events != [] {
      var head, e := events[..|events| - 1], events[|events| - 1];
      RelayedEnds(head);
      assert !Ended(head);
      EmittedEnds(head, e);
    }
  }

  /** A consult that is not cancelled ends with exactly one Done or Error call; a cancelled one makes none. */
  method ConsultEnds(events: seq<Engine>, cancelAt: Option<nat>, streamErr: Option<string>) returns (out: seq<Emit>, cancelled: bool)
    ensures if cancelled then NoEnd(out) else EndsOnce(out)
    ensures cancelAt.None? ==> !cancelled
  {
    var count;
    out, count, cancelled := Consult(events, cancelAt, streamErr);
    RelayedEnds(events[..count]);
    assert count == |events| ==> events[..count] == events;
  }
}
