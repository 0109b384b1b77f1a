/** The bridge's stream client (pkg/rsassistant/stream.go) as interleaved steps of its goroutines:
    thread 0 runs onMsg, one message at a time; every other thread is a closer (the timeout timer,
    the consumer's Close) that may call close() whenever it likes; the consumer reads the channel
    or stops reading. The network may drop, repeat and reorder the server's numbered events. */
module EngineStream {
  import opened StreamProtocol
  import opened Wrappers

  const CAPACITY := 64

  /** What deliver puts on the channel: the server's event n, or an error made up for a reply
      that is not a stream event. */
  datatype Item = Server(n: nat) | Synthetic(code: string)

  /** A message on the inbox; Stream(n) is the server's event number n. */
  datatype Msg = NoResponders | ServiceError(status: string) | Malformed | Stream(n: nat)

  /** Where a thread stands. In every state from DeliverSelect to DeliverUnlock and from
      CloseEvents to CloseUnlock the thread holds mu. last says close() follows. */
  datatype Pc =
    | Rest
    | DeliverLock(item: Item, last: bool)
    | DeliverSelect(item: Item, last: bool)
    | DeliverUnlock(last: bool)
    | OnceEnter
    | OnceBody
    | OnceExit
    | CloseLock
    | CloseEvents
    | CloseUnlock
  {
    predicate Delivering() { DeliverLock? || DeliverSelect? || DeliverUnlock? }

    predicate Pending() { DeliverLock? || DeliverSelect? }

    predicate HoldsMu() { DeliverSelect? || DeliverUnlock? || CloseEvents? || CloseUnlock? }

    predicate InOnce() { OnceBody? || OnceExit? }

    predicate PastOnce() { CloseLock? || CloseEvents? || CloseUnlock? }

    /** How many own steps the thread still has before it rests. */
    function Rank(): nat {
      match this
      case Rest => 0
      case CloseUnlock => 1
      case CloseEvents => 2
      case CloseLock => 3
      case OnceExit => 4
      case OnceBody => 5
      case OnceEnter => 6
      case DeliverUnlock(_) => 7
      case DeliverSelect(_, _) => 8
      case DeliverLock(_, _) => 9
    }
  }

  /** sync.Once: the first caller runs the function, the others wait for it to finish. */
  datatype Once = Fresh | Running(t: nat) | Done

  /** panicked records a send on a closed channel or a second close of a channel. */
  datatype State = State(
    mu: Option<nat>, once: Once, doneClosed: bool, closed: bool, eventsClosed: bool,
    buffer: seq<Item>, received: seq<Item>, nextSeq: nat, pcs: seq<Pc>, panicked: bool)
  {
    /** Everything handed to the consumer's channel, in order. */
    function Sent(): seq<Item> { received + buffer }
  }

  datatype Step =
    | Arrive(m: Msg)
    | Begin(t: nat)
    | Acquire(t: nat)
    | Send
    | Drop
    | Release(t: nat)
    | EnterOnce(t: nat)
    | RunOnce(t: nat)
    | ExitOnce(t: nat)
    | CloseChannel(t: nat)
    | Receive
  {
    /** Steps a thread takes on its own once it has begun. */
    predicate Internal() { !Arrive? && !Begin? && !Receive? }

    /** The thread that takes the step; Receive is the consumer's. */
    function Actor(): nat {
      match this
      case Arrive(_) => 0
      case Send => 0
      case Drop => 0
      case Receive => 0
      case Begin(t) => t
      case Acquire(t) => t
      case Release(t) => t
      case EnterOnce(t) => t
      case RunOnce(t) => t
      case ExitOnce(t) => t
      case CloseChannel(t) => t
    }
  }

  function Init(closers: nat): State {
    State(None, Fresh, false, false, false, [], [], 0, seq(closers + 1, _ => Rest), false)
  }

  predicate Enabled(server: seq<Event>, s: State, step: Step)
    requires |s.pcs| > 0
  {
    !s.panicked &&
    match step
    case Arrive(m) => s.pcs[0].Rest? && (m.Stream? ==> m.n < |server|)
    case Begin(t) => 0 < t < |s.pcs| && s.pcs[t].Rest?
    case Acquire(t) => t < |s.pcs| && s.mu.None? && (s.pcs[t].DeliverLock? || s.pcs[t].CloseLock?)
    case Send => s.pcs[0].DeliverSelect? && (|s.buffer| < CAPACITY || s.eventsClosed)
    case Drop => s.pcs[0].DeliverSelect? && s.doneClosed
    case Release(t) => t < |s.pcs| && (s.pcs[t].DeliverUnlock? || s.pcs[t].CloseUnlock?)
    case EnterOnce(t) => t < |s.pcs| && s.pcs[t].OnceEnter? && !s.once.Running?
    case RunOnce(t) => t < |s.pcs| && s.pcs[t].OnceBody?
    case ExitOnce(t) => t < |s.pcs| && s.pcs[t].OnceExit?
    case CloseChannel(t) => t < |s.pcs| && s.pcs[t].CloseEvents?
    case Receive => |s.buffer| > 0
  }

  function Move(s: State, t: nat, pc: Pc): State
    requires t < |s.pcs|
  {
    s.(pcs := s.pcs[t := pc])
  }

  /** onMsg up to its call of deliver: replies that are not stream events end the stream with an
      error; a stream event is taken only if it carries the next number. */
  function OnMsg(server: seq<Event>, s: State, m: Msg): State
    requires |s.pcs| > 0 && (m.Stream? ==> m.n < |server|)
  {
    match m
    case NoResponders => Move(s, 0, DeliverLock(Synthetic("no_responders"), true))
    case ServiceError(st) => Move(s, 0, DeliverLock(Synthetic("status_" + st), true))
    case Malformed => s
    case Stream(n) =>
      if n != s.nextSeq then s
      else Move(s, 0, DeliverLock(Server(n), server[n].Terminates())).(nextSeq := n + 1)
  }

  function Apply(server: seq<Event>, s: State, step: Step): State
    requires |s.pcs| > 0 && Enabled(server, s, step)
  {
    match step
    case Arrive(m) => OnMsg(server, s, m)
    case Begin(t) => Move(s, t, OnceEnter)
    case Acquire(t) =>
      var locked := s.(mu := Some(t));
      if s.pcs[t].DeliverLock? then
        Move(locked, t, if s.closed then DeliverUnlock(s.pcs[t].last) else DeliverSelect(s.pcs[t].item, s.pcs[t].last))
      else if s.closed then Move(locked, t, CloseUnlock)
      else Move(locked, t, CloseEvents).(closed := true)
    case Send =>
      if s.eventsClosed then s.(panicked := true)
      else Move(s, 0, DeliverUnlock(s.pcs[0].last)).(buffer := s.buffer + [s.pcs[0].item])
    case Drop => Move(s, 0, DeliverUnlock(s.pcs[0].last))
    case Release(t) =>
      Move(s.(mu := None), t, if s.pcs[t].DeliverUnlock? && s.pcs[t].last then OnceEnter else Rest)
    case EnterOnce(t) =>
      if s.once.Done? then Move(s, t, CloseLock) else Move(s.(once := Running(t)), t, OnceBody)
    case RunOnce(t) =>
      if s.doneClosed then s.(panicked := true) else Move(s.(doneClosed := true), t, OnceExit)
    case ExitOnce(t) => Move(s.(once := Done), t, CloseLock)
    case CloseChannel(t) =>
      if s.eventsClosed then s.(panicked := true) else Move(s.(eventsClosed := true), t, CloseUnlock)
    case Receive => s.(received := s.received + [s.buffer[0]], buffer := s.buffer[1..])
  }

  /** The state after a schedule, or None when some step of it is not enabled. */
  function Exec(server: seq<Event>, closers: nat, run: seq<Step>): (r: Option<State>)
    ensures r.Some? ==> |r.value.pcs| == closers + 1
  {
    if run == [] then Some(Init(closers)) else
    match Exec(server, closers, run[..|run| - 1])
    case None => None
    case Some(s) =>
      var step := run[|run| - 1];
      if Enabled(server, s, step) then Some(Apply(server, s, step)) else None
  }
}
