/** Conversations as the providers take them, and when one is well formed. */
module Messages {

  datatype ToolUse = ToolUse(id: string, name: string, input: string)

  /** MediaBlock holds the line memory keeps in place of an image or document. */
  datatype Block =
    | TextBlock(text: string)
    | UseBlock(use: ToolUse)
    | ResultBlock(id: string, payload: string, isError: bool)
    | MediaBlock(ref: string)

  datatype Role = User | Assistant

  datatype Message = Message(role: Role, content: seq<Block>)

  function Says(role: Role, text: string): Message { Message(role, [TextBlock(text)]) }

  function LastText(blocks: seq<Block>): string {
    if blocks == [] then "" else
    var b := blocks[|blocks| - 1];
    LastText(blocks[..|blocks| - 1]) + if b.TextBlock? then b.text else ""
  }

  function Uses(blocks: seq<Block>): seq<ToolUse> {
    if blocks == [] then [] else
    var b := blocks[|blocks| - 1];
    Uses(blocks[..|blocks| - 1]) + if b.UseBlock? then [b.use] else []
  }

  function Ids(uses: seq<ToolUse>): seq<string> {
    seq(|uses|, i requires 0 <= i < |uses| => uses[i].id)
  }

  function ResultIds(blocks: seq<Block>): seq<string> {
    if blocks == [] then [] else
    var b := blocks[|blocks| - 1];
    ResultIds(blocks[..|blocks| - 1]) + if b.ResultBlock? then [b.id] else []
  }

  /** Ids a message asks about, or answers. */
  type Reader = Message -> seq<string>

  function Asks(): Reader { (m: Message) => Ids(Uses(m.content)) }

  function Replies(): Reader { (m: Message) => ResultIds(m.content) }

  /** Message i speaks in turn, is not empty, and answers exactly what the message before it asks, one
      for one and in order. */
  predicate LinkedAt(asks: Reader, answers: Reader, msgs: seq<Message>, i: nat)
    requires i < |msgs|
  {
    && msgs[i].role == (if i % 2 == 0 then User else Assistant)
    && msgs[i].content != []
    && answers(msgs[i]) == if i == 0 then [] else asks(msgs[i - 1])
  }

  predicate LinkedBy(asks: Reader, answers: Reader, msgs: seq<Message>) {
    forall i {:trigger LinkedAt(asks, answers, msgs, i)} | 0 <= i < |msgs| :: LinkedAt(asks, answers, msgs, i)
  }

  predicate Linked(msgs: seq<Message>) { LinkedBy(Asks(), Replies(), msgs) }

  /** m may follow msgs. */
  predicate Fits(asks: Reader, answers: Reader, msgs: seq<Message>, m: Message) {
    LinkedAt(asks, answers, msgs + [m], |msgs|)
  }

  lemma {:induction false} LinkedAdd(asks: Reader, answers: Reader, msgs: seq<Message>, m: Message)
    ensures LinkedBy(asks, answers, msgs + [m]) <==> LinkedBy(asks, answers, msgs) && Fits(asks, answers, msgs, m)
    ensures Fits(asks, answers, msgs, m) <==>
              && m.role == (if |msgs| % 2 == 0 then User else Assistant) && m.content != []
              && answers(m) == if msgs == [] then [] else asks(msgs[|msgs| - 1])
  {
    var more := msgs + [m];
    forall i | 0 <= i < |msgs| ensures LinkedAt(asks, answers, more, i) <==> LinkedAt(asks, answers, msgs, i) {
    }
  }

  /** What the provider accepts: user and assistant alternate and the user speaks last, nothing is
      empty, and the tool results answer the tool uses just before them, one for one and in order. */
  predicate WellFormed(msgs: seq<Message>) {
    Linked(msgs) && |msgs| % 2 == 1
  }

  predicate HistoryOkBy(asks: Reader, answers: Reader, h: seq<Message>) {
    LinkedBy(asks, answers, h) && |h| % 2 == 0 && (h != [] ==> asks(h[|h| - 1]) == [])
  }

  /** A history a user message may follow. */
  predicate HistoryOk(h: seq<Message>) {
    HistoryOkBy(Asks(), Replies(), h)
  }
}
