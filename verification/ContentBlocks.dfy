/** What a stream of interleaved content blocks means: each block's own start and fragments. */
module ContentBlocks {
  import opened Wrappers

  /** What one frame contributes, whichever wire it came on. */
  datatype Part =
    | Open(index: int, id: string, name: string)
    | Input(index: int, fragment: string)
    | Close(index: int)
    | Text(text: string)
    | Reasoning(text: string)
    | Finish(reason: string)
    | Nothing

  datatype Use = Use(id: string, name: string, input: string)

  /** Tool uses still open by block index, completed ones in order, and the text so far. */
  datatype Decoded = Decoded(open: map<int, Use>, completed: seq<Use>, text: string, stop: string)

  function Step(d: Decoded, p: Part): Decoded {
    match p
    case Open(i, id, name) => d.(open := d.open[i := Use(id, name, "")])
    case Input(i, f) => if i in d.open then d.(open := d.open[i := d.open[i].(input := d.open[i].input + f)]) else d
    case Close(i) => if i in d.open then d.(open := d.open - {i}, completed := d.completed + [d.open[i]]) else d
    case Text(t) => d.(text := d.text + t)
    case Finish(reason) => if reason != "" then d.(stop := reason) else d
    case Reasoning(_) => d
    case Nothing => d
  }

  function After(parts: seq<Part>): Decoded {
    if parts == [] then Decoded(map[], [], "", "") else Step(After(parts[..|parts| - 1]), parts[|parts| - 1])
  }

  predicate Bounds(p: Part, i: int) { (p.Open? || p.Close?) && p.index == i }

  /** Where block i was last opened or closed before n. */
  function LastBound(parts: seq<Part>, i: int, n: nat): (r: Option<nat>)
    requires n <= |parts|
    ensures r.Some? ==> r.value < n && Bounds(parts[r.value], i) && forall k | r.value < k < n :: !Bounds(parts[k], i)
    ensures r.None? ==> forall k | 0 <= k < n :: !Bounds(parts[k], i)
  {
    if n == 0 then None
    else if Bounds(parts[n - 1], i) then Some(n - 1)
    else LastBound(parts, i, n - 1)
  }

  /** The fragments of block i in parts[lo..hi], joined in order. */
  function Fragments(parts: seq<Part>, i: int, lo: nat, hi: nat): string
    requires lo <= hi <= |parts|
  {
    if lo == hi then "" else
    var p := parts[hi - 1];
    Fragments(parts, i, lo, hi - 1) + if p.Input? && p.index == i then p.fragment else ""
  }

  /** Block i is open after n parts. */
  predicate OpenAt(parts: seq<Part>, i: int, n: nat)
    requires n <= |parts|
  {
    LastBound(parts, i, n).Some? && parts[LastBound(parts, i, n).value].Open?
  }

  /** The tool use open in block i: the start's id and name, and exactly its own fragments since. */
  function UseAt(parts: seq<Part>, i: int, n: nat): Use
    requires n <= |parts| && OpenAt(parts, i, n)
  {
    var j := LastBound(parts, i, n).value;
    Use(parts[j].id, parts[j].name, Fragments(parts, i, j + 1, n))
  }

  lemma {:induction false} OpenBlocksStep(parts: seq<Part>, n: nat, i: int, d: Decoded)
    requires 0 < n <= |parts|
    requires i in d.open <==> OpenAt(parts, i, n - 1)
    requires OpenAt(parts, i, n - 1) ==> d.open[i] == UseAt(parts, i, n - 1)
    ensures var e := Step(d, parts[n - 1]);
            && (i in e.open <==> OpenAt(parts, i, n))
            && (OpenAt(parts, i, n) ==> e.open[i] == UseAt(parts, i, n))
  {
  }

  /** In every stream, however its blocks interleave, the accumulator holds exactly the open blocks. */
  lemma {:induction false} OpenBlocks(parts: seq<Part>, n: nat, i: int)
    requires n <= |parts|
    ensures i in After(parts[..n]).open <==> OpenAt(parts, i, n)
    ensures OpenAt(parts, i, n) ==> After(parts[..n]).open[i] == UseAt(parts, i, n)
  {
    if n > 0 {
      OpenBlocks(parts, n - 1, i);
      OpenBlocksStep(parts, n, i, After(parts[..n - 1]));
      assert parts[..n][..n - 1] == parts[..n - 1];
    }
  }

  /** The tool uses completed by the closes among the first n parts, in order. */
  function CompletedBy(parts: seq<Part>, n: nat): seq<Use>
    requires n <= |parts|
  {
    if n == 0 then [] else
    var p := parts[n - 1];
    CompletedBy(parts, n - 1) + if p.Close? && OpenAt(parts, p.index, n - 1) then [UseAt(parts, p.index, n - 1)] else []
  }

  /** Each completed tool use carries the concatenation of its own fragments, and completes at the
      close of its block. */
  lemma {:induction false} CompletedUses(parts: seq<Part>, n: nat)
    requires n <= |parts|
    ensures After(parts[..n]).completed == CompletedBy(parts, n)
  {
    if n > 0 {
      assert parts[..n][..n - 1] == parts[..n - 1];
      CompletedUses(parts, n - 1);
      var p := parts[n - 1];
      if p.Close? {
        OpenBlocks(parts, n - 1, p.index);
      }
    }
  }

  // ---- what the agent is shown, in order

  /** An event for the agent. Tool events name the place of the start that opened the tool use. */
  datatype Shown =
    | ShowText(text: string)
    | ShowReasoning(text: string)
    | ShowStart(at: nat)
    | ShowDelta(at: nat)
    | ShowStop(at: nat)
    | ShowFinish(reason: string)

  /** Where each open block was opened. */
  function Openers(parts: seq<Part>): map<int, nat> {
    if parts == [] then map[] else
    var n := |parts| - 1;
    Reopened(Openers(parts[..n]), n, parts[n])
  }

  function Reopened(openers: map<int, nat>, n: nat, p: Part): map<int, nat> {
    if p.Open? then openers[p.index := n] else if p.Close? then openers - {p.index} else openers
  }

  /** What part n gives. */
  function Emitted(openers: map<int, nat>, n: nat, p: Part): seq<Shown> {
    match p
    case Open(_, _, _) => [ShowStart(n)]
    case Input(i, _) => if i in openers then [ShowDelta(openers[i])] else []
    case Close(i) => if i in openers then [ShowStop(openers[i])] else []
    case Text(t) => [ShowText(t)]
    case Reasoning(t) => [ShowReasoning(t)]
    case Finish(reason) => if reason != "" then [ShowFinish(reason)] else []
    case Nothing => []
  }

  function Events(parts: seq<Part>): seq<Shown> {
    if parts == [] then [] else
    var n := |parts| - 1;
    Events(parts[..n]) + Emitted(Openers(parts[..n]), n, parts[n])
  }

  lemma {:induction false} OneMorePart(parts: seq<Part>, p: Part)
    ensures After(parts + [p]) == Step(After(parts), p)
    ensures Openers(parts + [p]) == Reopened(Openers(parts), |parts|, p)
    ensures Events(parts + [p]) == Events(parts) + Emitted(Openers(parts), |parts|, p)
  {
    assert (parts + [p])[..|parts|] == parts;
  }

  /** A tool event names the last start of its block, if nothing has closed the block since. */
  lemma {:induction false} OpenersMean(parts: seq<Part>, n: nat, i: int)
    requires n <= |parts|
    ensures i in Openers(parts[..n]) <==> OpenAt(parts, i, n)
    ensures OpenAt(parts, i, n) ==> Openers(parts[..n])[i] == LastBound(parts, i, n).value
  {
    if n > 0 {
      assert parts[..n][..n - 1] == parts[..n - 1];
      OpenersMean(parts, n - 1, i);
    }
  }

  function Finishes(events: seq<Shown>): seq<string> {
    if events == [] then [] else
    var e := events[|events| - 1];
    Finishes(events[..|events| - 1]) + if e.ShowFinish? then [e.reason] else []
  }

  lemma {:induction false} FinishesSum(a: seq<Shown>, b: seq<Shown>)
    requires |b| <= 1
    ensures Finishes(a + b) == Finishes(a) + Finishes(b)
  {
    if b == [] {
      assert a + b == a;
    } else {
      assert (a + b)[..|a + b| - 1] == a && b[..0] == [];
    }
  }

  function Last(reasons: seq<string>): string { if reasons == [] then "" else reasons[|reasons| - 1] }

  lemma {:induction false} OneFinish(openers: map<int, nat>, n: nat, p: Part)
    ensures Finishes(Emitted(openers, n, p)) == if p.Finish? && p.reason != "" then [p.reason] else []
  {
    var e := Emitted(openers, n, p);
    assert e != [] ==> e[..0] == [];
  }

  lemma {:induction false} StopStep(d: Decoded, p: Part, reasons: seq<string>, more: seq<string>)
    requires d.stop == Last(reasons) && more == if p.Finish? && p.reason != "" then [p.reason] else []
    ensures Step(d, p).stop == Last(reasons + more)
  {
    assert reasons + [] == reasons;
  }

  lemma {:induction false} FinishOneMore(head: seq<Part>, p: Part)
    requires After(head).stop == Last(Finishes(Events(head)))
    ensures After(head + [p]).stop == Last(Finishes(Events(head + [p])))
  {
    OneMorePart(head, p);
    var more := Emitted(Openers(head), |head|, p);
    FinishesSum(Events(head), more);
    OneFinish(Openers(head), |head|, p);
    StopStep(After(head), p, Finishes(Events(head)), Finishes(more));
  }

  /** The stop reason decoded is the last one shown. */
  lemma {:induction false} LastFinishIsStop(parts: seq<Part>)
    ensures After(parts).stop == Last(Finishes(Events(parts)))
  {
    if parts != [] {
      var head, p := parts[..|parts| - 1], parts[|parts| - 1];
      assert parts == head + [p];
      LastFinishIsStop(head);
      FinishOneMore(head, p);
    }
  }

  /** No block is opened again before it is closed, and every opened block is closed. */
  predicate WellBracketed(parts: seq<Part>) {
    && (forall k | 0 <= k < |parts| && parts[k].Open? :: !OpenAt(parts, parts[k].index, k))
    && forall k | 0 <= k < |parts| && parts[k].Open? :: !OpenAt(parts, parts[k].index, |parts|)
  }

  function Opens(parts: seq<Part>, n: nat): nat
    requires n <= |parts|
  {
    if n == 0 then 0 else Opens(parts, n - 1) + if parts[n - 1].Open? then 1 else 0
  }

  lemma {:induction false} StartsBalance(parts: seq<Part>, n: nat)
    requires n <= |parts|
    requires forall k | 0 <= k < n && parts[k].Open? :: !OpenAt(parts, parts[k].index, k)
    ensures Opens(parts, n) == |After(parts[..n]).completed| + |After(parts[..n]).open|
  {
    if n > 0 {
      assert parts[..n][..n - 1] == parts[..n - 1];
      StartsBalance(parts, n - 1);
      var d, e, p := After(parts[..n - 1]), After(parts[..n]), parts[n - 1];
      if p.Open? {
        OpenBlocks(parts, n - 1, p.index);
        assert e.open.Keys == d.open.Keys + {p.index};
      } else if p.Close? && p.index in d.open {
        assert e.open.Keys == d.open.Keys - {p.index};
      } else if p.Input? && p.index in d.open {
        assert e.open.Keys == d.open.Keys;
      }
    }
  }

  /** A well-bracketed stream, in any interleaving, leaves the accumulator empty and completes each
      started tool use once. */
  lemma {:induction false} WellBracketedCompletes(parts: seq<Part>)
    requires WellBracketed(parts)
    ensures After(parts).open == map[] && |After(parts).completed| == Opens(parts, |parts|)
  {
    assert parts[..|parts|] == parts;
    StartsBalance(parts, |parts|);
    forall i ensures i !in After(parts).open {
      OpenBlocks(parts, |parts|, i);
    }
    assert After(parts).open.Keys == {};
  }
}
