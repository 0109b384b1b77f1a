/** Reassembling tool calls from interleaved content blocks: the accumulators of the Bedrock stream
    (pkg/workflow/builtin/bedrock/stream.go) and of the gateway stream
    (pkg/workflow/builtin/inferencegateway/stream.go), on decoded frames. */
module ToolDemux {
  import opened ContentBlocks
  import opened Wrappers

  // ---- the accumulator, with the tool uses its events point to

  class Cell {
    const id: string
    const name: string
    var input: string

    constructor (id: string, name: string)
      ensures this.id == id && this.name == name && input == ""
    {
      this.id, this.name, input := id, name, "";
    }

    function Value(): Use
      reads this
    {
      Use(id, name, input)
    }
  }

  /** An event for the agent; tool events share the tool use itself, not a copy of it. */
  datatype Out = OutText(text: string) | OutReasoning(text: string) | OutStart(cell: Cell) | OutDelta(cell: Cell) | OutStop(cell: Cell) | OutFinish(reason: string)

  function Stopped(out: seq<Out>): seq<Cell> {
    if out == [] then [] else
    var o := out[|out| - 1];
    Stopped(out[..|out| - 1]) + if o.OutStop? then [o.cell] else []
  }

  function TextOf(out: seq<Out>): string {
    if out == [] then "" else
    var o := out[|out| - 1];
    TextOf(out[..|out| - 1]) + if o.OutText? then o.text else ""
  }

  /** What the events say: the cells of the stop events, and the text. */
  predicate Told(out: seq<Out>, stopped: seq<Cell>, text: string) {
    stopped == Stopped(out) && text == TextOf(out)
  }

  lemma {:induction false} OneMoreOut(out: seq<Out>, stopped: seq<Cell>, text: string, o: Out)
    requires Told(out, stopped, text)
    ensures Told(out + [o], if o.OutStop? then stopped + [o.cell] else stopped, if o.OutText? then text + o.text else text)
  {
    assert (out + [o])[..|out|] == out;
  }

  /** The event shown for s, when the tool use started at place n is cells[n]. */
  predicate Realizes(cells: map<nat, Cell>, s: Shown, o: Out) {
    match s
    case ShowText(t) => o == OutText(t)
    case ShowReasoning(t) => o == OutReasoning(t)
    case ShowFinish(reason) => o == OutFinish(reason)
    case ShowStart(n) => n in cells && o == OutStart(cells[n])
    case ShowDelta(n) => n in cells && o == OutDelta(cells[n])
    case ShowStop(n) => n in cells && o == OutStop(cells[n])
  }

  /** The events are these, one for one and in order. */
  predicate Shows(cells: map<nat, Cell>, events: seq<Shown>, out: seq<Out>) {
    |out| == |events| && forall k | 0 <= k < |out| :: Realizes(cells, events[k], out[k])
  }

  /** The reason of the last finish event, or "". */
  function LastFinish(out: seq<Out>): string {
    if out == [] then "" else
    var o := out[|out| - 1];
    if o.OutFinish? then o.reason else LastFinish(out[..|out| - 1])
  }

  lemma {:induction false} FinishesShown(cells: map<nat, Cell>, events: seq<Shown>, out: seq<Out>)
    requires Shows(cells, events, out)
    ensures LastFinish(out) == Last(Finishes(events))
  {
    if out != [] {
      var n := |out| - 1;
      assert Realizes(cells, events[n], out[n]);
      FinishesShown(cells, events[..n], out[..n]);
    }
  }

  lemma {:induction false} ShowsMore(cells: map<nat, Cell>, events: seq<Shown>, out: seq<Out>, more: map<nat, Cell>, s: Shown, o: Out)
    requires Shows(cells, events, out) && Realizes(more, s, o)
    requires forall n | n in cells :: n in more && more[n] == cells[n]
    ensures Shows(more, events + [s], out + [o])
  {
    forall k | 0 <= k < |out| ensures Realizes(more, events[k], out[k]) {
      assert Realizes(cells, events[k], out[k]);
    }
  }

  function Values(cells: seq<Cell>): (r: seq<Use>)
    reads cells
    ensures |r| == |cells| && forall k | 0 <= k < |cells| :: r[k] == cells[k].Value()
  {
    if cells == [] then [] else Values(cells[..|cells| - 1]) + [cells[|cells| - 1].Value()]
  }

  /** Every cell, with the tool use it holds. */
  type Contents = map<Cell, Use>

  ghost predicate Mirrors(contents: Contents)
    reads contents.Keys
  {
    forall c | c in contents :: c.Value() == contents[c]
  }

  /** What the accumulator's cells stand for, after these parts: cells by the place of their start. */
  datatype Book = Book(accum: map<int, Cell>, cells: map<nat, Cell>, stopped: seq<Cell>, parts: seq<Part>, contents: Contents)
  {
    function Decoded(): Decoded { After(parts) }

    /** No cell is both open and stopped, or either one twice: what a stop event points to never
        changes again. Open and stopped cells hold the open and completed tool uses. */
    ghost predicate Holds(d: Decoded) {
      && d.open.Keys == accum.Keys && |stopped| == |d.completed|
      && (forall i | i in accum :: accum[i] in contents && contents[accum[i]] == d.open[i] && accum[i] !in stopped)
      && (forall i, j | i in accum && j in accum && i != j :: accum[i] != accum[j])
      && (forall k | 0 <= k < |stopped| :: stopped[k] in contents && contents[stopped[k]] == d.completed[k])
      && (forall k, l | 0 <= k < l < |stopped| :: stopped[k] != stopped[l])
    }

    /** Every start has a cell of its own, with its id and name; an open block's is that of its start. */
    ghost predicate Placed(openers: map<int, nat>) {
      && openers.Keys == accum.Keys
      && (forall i | i in accum :: openers[i] in cells && cells[openers[i]] == accum[i])
      && (forall n | n in cells :: n < |parts| && parts[n].Open? && cells[n].id == parts[n].id && cells[n].name == parts[n].name)
      && (forall n | 0 <= n < |parts| && parts[n].Open? :: n in cells && cells[n] in contents)
      && (forall n, m | n in cells && m in cells && n != m :: cells[n] != cells[m])
    }

    ghost predicate Kept() {
      Holds(Decoded()) && Placed(Openers(parts))
    }

    function Opened(i: int, cell: Cell): Book {
      Book(accum[i := cell], cells[|parts| := cell], stopped, parts + [Open(i, cell.id, cell.name)], contents[cell := Use(cell.id, cell.name, "")])
    }

    function Extended(i: int, fragment: string): Book
      requires i in accum && accum[i] in contents
    {
      var u := contents[accum[i]];
      this.(parts := parts + [Input(i, fragment)], contents := contents[accum[i] := u.(input := u.input + fragment)])
    }

    function Ended(i: int): Book
      requires i in accum
    {
      this.(accum := accum - {i}, stopped := stopped + [accum[i]], parts := parts + [Close(i)])
    }

    function Passed(p: Part): Book { this.(parts := parts + [p]) }

    /** p leaves every tool use as it is. */
    predicate Passes(p: Part) { !p.Open? && (p.Input? || p.Close? ==> p.index !in accum) }

    lemma {:induction false} PassedKept(p: Part)
      requires Kept() && Passes(p)
      ensures Passed(p).Kept() && Passed(p).Decoded().text == if p.Text? then Decoded().text + p.text else Decoded().text
    {
      OneMorePart(parts, p);
      PassedHolds(p, Decoded(), Step(Decoded(), p));
      PassedPlaced(p, Openers(parts), Reopened(Openers(parts), |parts|, p));
    }

    lemma {:induction false} PassedHolds(p: Part, d: Decoded, d': Decoded)
      requires Holds(d) && Passes(p) && d' == Step(d, p)
      ensures Passed(p).Holds(d')
    {
    }

    lemma {:induction false} PassedPlaced(p: Part, openers: map<int, nat>, openers': map<int, nat>)
      requires Placed(openers) && Passes(p) && openers' == Reopened(openers, |parts|, p)
      ensures Passed(p).Placed(openers')
    {
      assert openers' == openers;
    }

    lemma {:induction false} OpenedKept(i: int, cell: Cell)
      requires Kept() && cell !in contents
      ensures Opened(i, cell).Kept()
    {
      OneMorePart(parts, Open(i, cell.id, cell.name));
      OpenedHolds(i, cell, Decoded(), Step(Decoded(), Open(i, cell.id, cell.name)));
      OpenedPlaced(i, cell, Openers(parts), Reopened(Openers(parts), |parts|, Open(i, cell.id, cell.name)));
    }

    lemma {:induction false} OpenedHolds(i: int, cell: Cell, d: Decoded, d': Decoded)
      requires Holds(d) && cell !in contents && d' == Step(d, Open(i, cell.id, cell.name))
      ensures Opened(i, cell).Holds(d')
    {
      forall k | 0 <= k < |stopped| ensures stopped[k] != cell {
      }
    }

    lemma {:induction false} OpenedPlaced(i: int, cell: Cell, openers: map<int, nat>, openers': map<int, nat>)
      requires Placed(openers) && cell !in contents && openers' == Reopened(openers, |parts|, Open(i, cell.id, cell.name))
      ensures Opened(i, cell).Placed(openers')
    {
    }

    lemma {:induction false} ExtendedKept(i: int, fragment: string)
      requires Kept() && i in accum
      ensures Extended(i, fragment).Kept()
    {
      OneMorePart(parts, Input(i, fragment));
      ExtendedHolds(i, fragment, Decoded(), Step(Decoded(), Input(i, fragment)));
      ExtendedPlaced(i, fragment, Openers(parts));
    }

    lemma {:induction false} ExtendedHolds(i: int, fragment: string, d: Decoded, d': Decoded)
      requires Holds(d) && i in accum && d' == Step(d, Input(i, fragment))
      ensures Extended(i, fragment).Holds(d')
    {
      forall k | 0 <= k < |stopped| ensures stopped[k] != accum[i] {
        assert stopped[k] in stopped;
      }
    }

    lemma {:induction false} ExtendedPlaced(i: int, fragment: string, openers: map<int, nat>)
      requires Placed(openers) && i in accum && accum[i] in contents
      ensures Extended(i, fragment).Placed(openers)
    {
    }

    lemma {:induction false} EndedKept(i: int)
      requires Kept() && i in accum
      ensures Ended(i).Kept()
    {
      OneMorePart(parts, Close(i));
      EndedHolds(i, Decoded(), Step(Decoded(), Close(i)));
      EndedPlaced(i, Openers(parts), Reopened(Openers(parts), |parts|, Close(i)));
    }

    lemma {:induction false} EndedHolds(i: int, d: Decoded, d': Decoded)
      requires Holds(d) && i in accum && d' == Step(d, Close(i))
      ensures Ended(i).Holds(d')
    {
      var more := stopped + [accum[i]];
      forall j | j in accum - {i} ensures accum[j] !in more {
      }
      forall k, l | 0 <= k < l < |more| ensures more[k] != more[l] {
        if l == |stopped| {
          assert more[k] in stopped;
        }
      }
      assert (d.open - {i}).Keys == (accum - {i}).Keys;
    }

    lemma {:induction false} EndedPlaced(i: int, openers: map<int, nat>, openers': map<int, nat>)
      requires Placed(openers) && i in accum && openers' == Reopened(openers, |parts|, Close(i))
      ensures Ended(i).Placed(openers')
    {
    }
  }

  /** The events sent are those of the parts; the cells stopped and the text are as they say. */
  ghost predicate Sent(b: Book, out: seq<Out>) {
    Shows(b.cells, Events(b.parts), out) && Told(out, b.stopped, b.Decoded().text)
  }

  /** One event more. */
  lemma {:induction false} ShownMore(cells: map<nat, Cell>, events: seq<Shown>, stopped: seq<Cell>, text: string, out: seq<Out>, more: map<nat, Cell>, s: Shown, o: Out)
    requires Shows(cells, events, out) && Told(out, stopped, text) && Realizes(more, s, o)
    requires forall n | n in cells :: n in more && more[n] == cells[n]
    ensures Shows(more, events + [s], out + [o])
    ensures Told(out + [o], if o.OutStop? then stopped + [o.cell] else stopped, if o.OutText? then text + o.text else text)
  {
    OneMoreOut(out, stopped, text, o);
    ShowsMore(cells, events, out, more, s, o);
  }

  /** One part, which shows s. */
  lemma {:induction false} SentMore(was: Book, next: Book, s: Shown, out: seq<Out>, o: Out)
    requires Sent(was, out) && Realizes(next.cells, s, o)
    requires Events(next.parts) == Events(was.parts) + [s]
    requires next.Decoded().text == if o.OutText? then was.Decoded().text + o.text else was.Decoded().text
    requires forall n | n in was.cells :: n in next.cells && next.cells[n] == was.cells[n]
    requires next.stopped == if o.OutStop? then was.stopped + [o.cell] else was.stopped
    ensures Sent(next, out + [o])
  {
    ShownMore(was.cells, Events(was.parts), was.stopped, was.Decoded().text, out, next.cells, s, o);
  }

  lemma {:induction false} MoreText(parts: seq<Part>, p: Part)
    ensures After(parts + [p]).text == if p.Text? then After(parts).text + p.text else After(parts).text
  {
    OneMorePart(parts, p);
  }

  lemma {:induction false} MoreEvents(parts: seq<Part>, p: Part, s: Shown)
    requires Emitted(Openers(parts), |parts|, p) == [s]
    ensures Events(parts + [p]) == Events(parts) + [s]
  {
    OneMorePart(parts, p);
  }

  /** One part that shows nothing. */
  lemma {:induction false} SentSame(was: Book, p: Part, out: seq<Out>)
    requires Sent(was, out) && Emitted(Openers(was.parts), |was.parts|, p) == []
    ensures Sent(was.Passed(p), out)
  {
    OneMorePart(was.parts, p);
    assert Events(was.parts) + [] == Events(was.parts);
  }

  lemma {:induction false} StartSent(b: Book, i: int, cell: Cell, out: seq<Out>)
    requires b.Kept() && Sent(b, out) && cell !in b.contents
    ensures b.Opened(i, cell).Kept() && Sent(b.Opened(i, cell), out + [OutStart(cell)])
  {
    b.OpenedKept(i, cell);
    MoreText(b.parts, Open(i, cell.id, cell.name));
    MoreEvents(b.parts, Open(i, cell.id, cell.name), ShowStart(|b.parts|));
    SentMore(b, b.Opened(i, cell), ShowStart(|b.parts|), out, OutStart(cell));
  }

  lemma {:induction false} DeltaSent(b: Book, i: int, fragment: string, out: seq<Out>)
    requires b.Kept() && Sent(b, out) && i in b.accum
    ensures b.Extended(i, fragment).Kept() && Sent(b.Extended(i, fragment), out + [OutDelta(b.accum[i])])
  {
    b.ExtendedKept(i, fragment);
    MoreText(b.parts, Input(i, fragment));
    MoreEvents(b.parts, Input(i, fragment), ShowDelta(Openers(b.parts)[i]));
    SentMore(b, b.Extended(i, fragment), ShowDelta(Openers(b.parts)[i]), out, OutDelta(b.accum[i]));
  }

  lemma {:induction false} StopSent(b: Book, i: int, out: seq<Out>)
    requires b.Kept() && Sent(b, out) && i in b.accum
    ensures b.Ended(i).Kept() && Sent(b.Ended(i), out + [OutStop(b.accum[i])])
  {
    b.EndedKept(i);
    MoreText(b.parts, Close(i));
    MoreEvents(b.parts, Close(i), ShowStop(Openers(b.parts)[i]));
    SentMore(b, b.Ended(i), ShowStop(Openers(b.parts)[i]), out, OutStop(b.accum[i]));
  }

  function OutOf(p: Part): Out
    requires p.Text? || p.Reasoning? || p.Finish?
  {
    if p.Text? then OutText(p.text) else if p.Reasoning? then OutReasoning(p.text) else OutFinish(p.reason)
  }

  lemma {:induction false} PartSent(b: Book, p: Part, out: seq<Out>)
    requires b.Kept() && Sent(b, out) && (p.Text? || p.Reasoning? || (p.Finish? && p.reason != ""))
    ensures b.Passed(p).Kept() && Sent(b.Passed(p), out + [OutOf(p)])
  {
    b.PassedKept(p);
    MoreText(b.parts, p);
    MoreEvents(b.parts, p, Emitted(Openers(b.parts), |b.parts|, p)[0]);
    SentMore(b, b.Passed(p), Emitted(Openers(b.parts), |b.parts|, p)[0], out, OutOf(p));
  }

  lemma {:induction false} NothingSent(b: Book, p: Part, out: seq<Out>)
    requires b.Kept() && Sent(b, out) && b.Passes(p) && (p.Nothing? || p.Input? || p.Close?)
    ensures b.Passed(p).Kept() && Sent(b.Passed(p), out)
  {
    b.PassedKept(p);
    SentSame(b, p, out);
  }

  method Grow(cell: Cell, fragment: string, ghost contents: Contents)
    requires Mirrors(contents) && cell in contents
    modifies cell
    ensures Mirrors(contents[cell := contents[cell].(input := contents[cell].input + fragment)])
  {
    cell.input := cell.input + fragment;
  }

  class Accumulator {
    var accum: map<int, Cell>
    var out: seq<Out>
    ghost var book: Book

    /** The open cells and the events sent are those of the parts taken so far. */
    ghost predicate Valid()
      reads this, book.contents.Keys
    {
      book.Kept() && accum == book.accum && Mirrors(book.contents) && Sent(book, out)
    }

    constructor ()
      ensures Valid() && book.parts == [] && book.contents == map[]
    {
      accum, out, book := map[], [], Book(map[], map[], [], [], map[]);
    }

    method OpenTool(index: int, id: string, name: string)
      requires Valid()
      modifies this
      ensures Valid() && book.parts == old(book).parts + [Open(index, id, name)]
      ensures old(book).contents.Keys <= book.contents.Keys && fresh(book.contents.Keys - old(book).contents.Keys)
    {
      var cell := new Cell(id, name);
      StartSent(book, index, cell, out);
      accum, out, book := accum[index := cell], out + [OutStart(cell)], book.Opened(index, cell);
    }

    method Extend(index: int, fragment: string)
      requires Valid() && index in accum
      modifies this`out, this`book, book.contents.Keys
      ensures Valid() && book.parts == old(book).parts + [Input(index, fragment)] && book.contents.Keys == old(book).contents.Keys
    {
      var cell := accum[index];
      ghost var was, next := book, book.Extended(index, fragment);
      DeltaSent(was, index, fragment, out);
      Grow(cell, fragment, was.contents);
      out, book := out + [OutDelta(cell)], next;
    }

    method AddInput(index: int, fragment: string)
      requires Valid()
      modifies this`out, this`book, book.contents.Keys
      ensures Valid() && book.parts == old(book).parts + [Input(index, fragment)] && book.contents.Keys == old(book).contents.Keys
    {
      if index in accum {
        Extend(index, fragment);
      } else {
        Skip(Input(index, fragment));
      }
    }

    method CloseBlock(index: int)
      requires Valid()
      modifies this
      ensures Valid() && book.parts == old(book).parts + [Close(index)] && book.contents == old(book).contents
    {
      if index in accum {
        StopSent(book, index, out);
        accum, out, book := accum - {index}, out + [OutStop(accum[index])], book.Ended(index);
      } else {
        Skip(Close(index));
      }
    }

    /** A part that carries no tool data and is sent on. */
    method Forward(p: Part)
      requires Valid() && (p.Text? || p.Reasoning? || (p.Finish? && p.reason != ""))
      modifies this`out, this`book
      ensures Valid() && book.parts == old(book).parts + [p] && book.contents == old(book).contents
    {
      PartSent(book, p, out);
      out, book := out + [OutOf(p)], book.Passed(p);
    }

    /** A part there is nothing to do for. */
    ghost method Skip(p: Part)
      requires Valid() && book.Passes(p) && (p.Nothing? || p.Input? || p.Close?)
      modifies this`book
      ensures Valid() && book.parts == old(book).parts + [p] && book.contents == old(book).contents
    {
      NothingSent(book, p, out);
      book := book.Passed(p);
    }

    /** What the agent has been given: the text, the completed tool uses as they are now, and the last
        stop reason. */
    ghost function Given(): (string, seq<Use>, string)
      requires Valid()
      reads this, book.contents.Keys, book.stopped
    {
      (TextOf(out), Values(book.stopped), LastFinish(out))
    }

    /** The agent has been given exactly what was decoded. */
    lemma {:induction false} GivenIsDecoded()
      requires Valid()
      ensures Given() == (After(book.parts).text, After(book.parts).completed, After(book.parts).stop)
    {
      var d := book.Decoded();
      forall k | 0 <= k < |book.stopped| ensures book.stopped[k].Value() == d.completed[k] {
        assert book.stopped[k] in book.contents;
      }
      assert Values(book.stopped) == d.completed;
      LastFinishIsStop(book.parts);
      FinishesShown(book.cells, Events(book.parts), out);
    }
  }

  // ---- the two wires

  /** Decoded Anthropic chunks. kind is the block's type; text is a text_delta, json an input_json_delta. */
  datatype Chunk =
    | BlockStart(index: int, kind: string, id: string, name: string)
    | BlockText(index: int, text: string)
    | BlockJson(index: int, json: string)
    | BlockStop(index: int)
    | MessageDelta(stopReason: string)
    | OtherChunk

  function ChunkPart(c: Chunk): Part {
    match c
    case BlockStart(i, kind, id, name) => if kind == "tool_use" then Open(i, id, name) else Nothing
    case BlockText(_, t) => Text(t)
    case BlockJson(i, j) => Input(i, j)
    case BlockStop(i) => Close(i)
    case MessageDelta(reason) => if reason != "" then Finish(reason) else Nothing
    case OtherChunk => Nothing
  }

  /** handleAnthropicChunkStats. */
  method HandleChunk(acc: Accumulator, c: Chunk)
    requires acc.Valid()
    modifies acc, acc.book.contents.Keys
    ensures acc.Valid() && acc.book.parts == old(acc.book).parts + [ChunkPart(c)]
    ensures old(acc.book).contents.Keys <= acc.book.contents.Keys && fresh(acc.book.contents.Keys - old(acc.book).contents.Keys)
  {
    ghost var p := ChunkPart(c);
    match c {
      case BlockStart(i, kind, id, name) =>
        if kind == "tool_use" {
          assert p == Open(i, id, name);
          acc.OpenTool(i, id, name);
        } else {
          assert p == Nothing;
          acc.Skip(Nothing);
        }
      case BlockText(_, t) =>
        assert p == Text(t);
        acc.Forward(Text(t));
      case BlockJson(i, j) =>
        assert p == Input(i, j);
        acc.AddInput(i, j);
      case BlockStop(i) =>
        assert p == Close(i);
        acc.CloseBlock(i);
      case MessageDelta(reason) =>
        if reason != "" {
          assert p == Finish(reason);
          acc.Forward(Finish(reason));
        } else {
          assert p == Nothing;
          acc.Skip(Nothing);
        }
      case OtherChunk =>
        assert p == Nothing;
        acc.Skip(Nothing);
    }
  }

  /** Decoded gateway events, each with the number it was published under. */
  datatype GatewayEvent =
    | Delta(index: int, text: string, toolInput: string)
    | ReasoningDelta(text: string)
    | ToolUseStart(index: int, id: string, name: string)
    | ContentBlockStop(index: int)
    | MessageStop(reason: string)
    | DoneEvent
    | ErrorEvent(message: string)
    | OtherEvent

  datatype Numbered = Numbered(number: int, event: GatewayEvent)

  /** Text wins over tool input, and empty pieces are skipped. */
  function EventPart(e: GatewayEvent): Part {
    match e
    case Delta(i, t, j) => if t != "" then Text(t) else if j != "" then Input(i, j) else Nothing
    case ReasoningDelta(t) => if t != "" then Reasoning(t) else Nothing
    case ToolUseStart(i, id, name) => Open(i, id, name)
    case ContentBlockStop(i) => Close(i)
    case MessageStop(reason) => if reason != "" then Finish(reason) else Nothing
    case DoneEvent => Nothing
    case ErrorEvent(_) => Nothing
    case OtherEvent => Nothing
  }

  datatype Ending = Done | Gap(want: int, got: int) | GatewayError(message: string) | Silence

  /** How a stream ends at an event, when n was wanted. */
  function EndingAt(e: Numbered, n: nat): Ending {
    if e.number != n then Gap(n, e.number)
    else if e.event.ErrorEvent? then GatewayError(e.event.message)
    else Ending.Done
  }

  function EventParts(events: seq<Numbered>): seq<Part> {
    seq(|events|, i requires 0 <= i < |events| => EventPart(events[i].event))
  }

  function Taken(events: seq<Numbered>, n: nat): seq<Part>
    requires n <= |events|
  {
    EventParts(events[..n])
  }

  /** The first n events are numbered 0, 1, 2, ... and none of them ends the stream. */
  predicate Contiguous(events: seq<Numbered>, n: nat)
    requires n <= |events|
  {
    forall k | 0 <= k < n :: events[k].number == k && !events[k].event.DoneEvent? && !events[k].event.ErrorEvent?
  }

  lemma {:induction false} ContiguousMore(events: seq<Numbered>, n: nat)
    requires n < |events| && Contiguous(events, n)
    requires events[n].number == n && !events[n].event.DoneEvent? && !events[n].event.ErrorEvent?
    ensures Contiguous(events, n + 1)
  {
  }

  lemma {:induction false} NextEvent(events: seq<Numbered>, n: nat)
    requires n < |events|
    ensures Taken(events, n + 1) == Taken(events, n) + [EventPart(events[n].event)]
  {
  }

  method TakeEvent(acc: Accumulator, events: seq<Numbered>, n: nat)
    requires n < |events| && !events[n].event.DoneEvent? && !events[n].event.ErrorEvent?
    requires acc.Valid() && acc.book.parts == Taken(events, n)
    modifies acc, acc.book.contents.Keys
    ensures acc.Valid() && acc.book.parts == Taken(events, n + 1)
    ensures fresh(acc.book.contents.Keys - old(acc.book).contents.Keys)
  {
    NextEvent(events, n);
    HandleEvent(acc, events[n].event);
  }

  /** How the stream ends at this event, if it does. */
  method CheckEvent(e: Numbered, want: nat) returns (r: Option<Ending>)
    ensures r.None? <==> e.number == want && !e.event.DoneEvent? && !e.event.ErrorEvent?
    ensures r.Some? ==> r.value == EndingAt(e, want) && !r.value.Silence?
  {
    if e.number != want {
      return Some(Gap(want, e.number));
    }
    if e.event.DoneEvent? {
      return Some(Ending.Done);
    }
    if e.event.ErrorEvent? {
      return Some(GatewayError(e.event.message));
    }
    return None;
  }

  /** consumeStream: takes events only while their numbers are 0, 1, 2, ...; the events after taken
      play no part. Silence is the stream's end without a done or error event. */
  method ConsumeStream(events: seq<Numbered>) returns (acc: Accumulator, ending: Ending, taken: nat)
    ensures fresh(acc) && acc.Valid()
    ensures taken <= |events| && acc.book.parts == Taken(events, taken) && Contiguous(events, taken)
    ensures ending.Silence? <==> taken == |events|
    ensures taken < |events| ==> ending == EndingAt(events[taken], taken)
    ensures taken < |events| && events[taken].number == taken ==> events[taken].event.DoneEvent? || events[taken].event.ErrorEvent?
  {
    acc := new Accumulator();
    taken := 0;
    while taken < |events|
      invariant fresh(acc) && fresh(acc.book.contents.Keys) && acc.Valid()
      invariant taken <= |events| && acc.book.parts == Taken(events, taken) && Contiguous(events, taken)
    {
      var stop := CheckEvent(events[taken], taken);
      if stop.Some? {
        return acc, stop.value, taken;
      }
      ContiguousMore(events, taken);
      TakeEvent(acc, events, taken);
      taken := taken + 1;
    }
    return acc, Silence, taken;
  }

  method HandleEvent(acc: Accumulator, e: GatewayEvent)
    requires acc.Valid() && !e.DoneEvent? && !e.ErrorEvent?
    modifies acc, acc.book.contents.Keys
    ensures acc.Valid() && acc.book.parts == old(acc.book).parts + [EventPart(e)]
    ensures old(acc.book).contents.Keys <= acc.book.contents.Keys && fresh(acc.book.contents.Keys - old(acc.book).contents.Keys)
  {
    ghost var p := EventPart(e);
    match e {
      case Delta(i, t, j) =>
        if t != "" {
          assert p == Text(t);
          acc.Forward(Text(t));
        } else if j != "" {
          assert p == Input(i, j);
          acc.AddInput(i, j);
        } else {
          assert p == Nothing;
          acc.Skip(Nothing);
        }
      case ReasoningDelta(t) =>
        if t != "" {
          assert p == Reasoning(t);
          acc.Forward(Reasoning(t));
        } else {
          assert p == Nothing;
          acc.Skip(Nothing);
        }
      case ToolUseStart(i, id, name) =>
        assert p == Open(i, id, name);
        acc.OpenTool(i, id, name);
      case ContentBlockStop(i) =>
        assert p == Close(i);
        acc.CloseBlock(i);
      case MessageStop(reason) =>
        if reason != "" {
          assert p == Finish(reason);
          acc.Forward(Finish(reason));
        } else {
          assert p == Nothing;
          acc.Skip(Nothing);
        }
      case OtherEvent =>
        assert p == Nothing;
        acc.Skip(Nothing);
    }
  }

  // ---- the same content on both wires

  /** A model's content blocks as they happen: text and tool blocks, their pieces and their ends. Pieces of
      reasoning come on the gateway's wire only. */
  datatype Content =
    | StartText(index: int)
    | StartTool(index: int, id: string, name: string)
    | TextPiece(index: int, text: string)
    | ThinkPiece(text: string)
    | ToolPiece(index: int, json: string)
    | EndBlock(index: int)
    | EndMessage(reason: string)

  function OnBedrock(c: Content): Chunk {
    match c
    case StartText(i) => BlockStart(i, "text", "", "")
    case StartTool(i, id, name) => BlockStart(i, "tool_use", id, name)
    case TextPiece(i, t) => BlockText(i, t)
    case ThinkPiece(_) => OtherChunk
    case ToolPiece(i, j) => BlockJson(i, j)
    case EndBlock(i) => BlockStop(i)
    case EndMessage(reason) => MessageDelta(reason)
  }

  function OnGateway(c: Content): GatewayEvent {
    match c
    case StartText(_) => OtherEvent
    case StartTool(i, id, name) => ToolUseStart(i, id, name)
    case TextPiece(i, t) => Delta(i, t, "")
    case ThinkPiece(t) => ReasoningDelta(t)
    case ToolPiece(i, j) => Delta(i, "", j)
    case EndBlock(i) => ContentBlockStop(i)
    case EndMessage(reason) => MessageStop(reason)
  }

  /** What the content means, on neither wire. */
  function PlainPart(c: Content): Part {
    match c
    case StartText(_) => Nothing
    case StartTool(i, id, name) => Open(i, id, name)
    case TextPiece(_, t) => Text(t)
    case ThinkPiece(t) => Reasoning(t)
    case ToolPiece(i, j) => Input(i, j)
    case EndBlock(i) => Close(i)
    case EndMessage(reason) => Finish(reason)
  }

  type Wire = Content -> Part

  function Bedrock(): Wire { (c: Content) => ChunkPart(OnBedrock(c)) }

  function Gateway(): Wire { (c: Content) => EventPart(OnGateway(c)) }

  function Plain(): Wire { (c: Content) => PlainPart(c) }

  function Parts(wire: Wire, cs: seq<Content>): seq<Part> {
    if cs == [] then [] else Parts(wire, cs[..|cs| - 1]) + [wire(cs[|cs| - 1])]
  }

  /** For the same content, in any interleaving, both decoders give the content's text, its completed tool
      uses in order, and its stop reason. */
  lemma {:induction false} DecodersAgree(cs: seq<Content>)
    ensures After(Parts(Bedrock(), cs)) == After(Parts(Plain(), cs))
    ensures After(Parts(Gateway(), cs)) == After(Parts(Plain(), cs))
  {
    if cs != [] {
      var head, c := cs[..|cs| - 1], cs[|cs| - 1];
      DecodersAgree(head);
      OneMorePart(Parts(Bedrock(), head), Bedrock()(c));
      OneMorePart(Parts(Gateway(), head), Gateway()(c));
      OneMorePart(Parts(Plain(), head), Plain()(c));
      PieceAgrees(After(Parts(Plain(), head)), c);
    }
  }

  lemma {:induction false} PieceAgrees(d: Decoded, c: Content)
    ensures Step(d, ChunkPart(OnBedrock(c))) == Step(d, EventPart(OnGateway(c))) == Step(d, PlainPart(c))
  {
    if c.ToolPiece? && c.json == "" && c.index in d.open {
      assert d.open[c.index].input + "" == d.open[c.index].input;
      assert d.open[c.index := d.open[c.index]] == d.open;
    } else if c.TextPiece? && c.text == "" {
      assert d.text + "" == d.text;
    }
  }

  // ---- what each wire shows

  /** The content without its reasoning. */
  function WithoutThoughts(): Wire { (c: Content) => if c.ThinkPiece? then Nothing else PlainPart(c) }

  predicate EmptyPiece(c: Content) {
    (c.TextPiece? && c.text == "") || (c.ThinkPiece? && c.text == "") || (c.ToolPiece? && c.json == "")
  }

  /** The content without its empty pieces. */
  function WithoutEmpty(): Wire { (c: Content) => if EmptyPiece(c) then Nothing else PlainPart(c) }

  /** Two wires that give each piece the same effect give the same events. */
  ghost predicate SameEffect(a: Wire, b: Wire, c: Content) {
    forall openers, n {:trigger Emitted(openers, n, a(c))} {:trigger Reopened(openers, n, a(c))} ::
      Emitted(openers, n, a(c)) == Emitted(openers, n, b(c)) && Reopened(openers, n, a(c)) == Reopened(openers, n, b(c))
  }

  lemma {:induction false} SameEvents(a: Wire, b: Wire, cs: seq<Content>)
    requires forall c :: SameEffect(a, b, c)
    ensures |Parts(a, cs)| == |Parts(b, cs)| && Openers(Parts(a, cs)) == Openers(Parts(b, cs))
    ensures Events(Parts(a, cs)) == Events(Parts(b, cs))
  {
    if cs != [] {
      var head, c := cs[..|cs| - 1], cs[|cs| - 1];
      SameEvents(a, b, head);
      OneMorePart(Parts(a, head), a(c));
      OneMorePart(Parts(b, head), b(c));
      assert SameEffect(a, b, c);
      assert Emitted(Openers(Parts(a, head)), |Parts(a, head)|, a(c)) == Emitted(Openers(Parts(a, head)), |Parts(a, head)|, b(c));
    }
  }

  lemma {:induction false} BedrockPart(c: Content)
    ensures Bedrock()(c) == (if c.EndMessage? && c.reason == "" then Nothing else WithoutThoughts()(c))
  {
  }

  lemma {:induction false} GatewayPart(c: Content)
    ensures Gateway()(c) == (if c.EndMessage? && c.reason == "" then Nothing else WithoutEmpty()(c))
  {
  }

  /** The Bedrock decoder shows the content's events without the reasoning. */
  lemma {:induction false} BedrockShows(cs: seq<Content>)
    ensures Events(Parts(Bedrock(), cs)) == Events(Parts(WithoutThoughts(), cs))
  {
    forall c ensures SameEffect(Bedrock(), WithoutThoughts(), c) {
      BedrockPart(c);
    }
    SameEvents(Bedrock(), WithoutThoughts(), cs);
  }

  /** The gateway decoder shows the content's events without those of empty pieces. */
  lemma {:induction false} GatewayShows(cs: seq<Content>)
    ensures Events(Parts(Gateway(), cs)) == Events(Parts(WithoutEmpty(), cs))
  {
    forall c ensures SameEffect(Gateway(), WithoutEmpty(), c) {
      GatewayPart(c);
    }
    SameEvents(Gateway(), WithoutEmpty(), cs);
  }
}
